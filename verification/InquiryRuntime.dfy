/**
 * The inquiry-reply runtime: the same two resume paths, but here an approval is of text. After a restart
 * the text is not in the store; it is the person's own, or the saved head read back and checked against the
 * fingerprint the run parked with.
 */
module InquiryRuntime {
  import opened Base
  import opened Text

  /** The content hash, taken as collision-free. */
  datatype Fingerprint = Of(title: string, comments: string)

  datatype Draft = Draft(title: string, comments: string, version: nat)

  function Print(d: Draft): Fingerprint { Of(d.title, d.comments) }

  /** An inquiry at the backend: its customer's subject, its phase, and the head draft, if any. */
  datatype Item = Item(phase: string, title: string, draft: Option<Draft>)

  /** What a run parks on; the text stays in the process, only its fingerprint is stored. */
  datatype Candidate = Candidate(
    workItemId: string, title: string, comments: string, fingerprint: Option<Fingerprint>, phase: string)

  datatype Verdict = Approved | Rejected | NoInquiry

  datatype Outcome = Outcome(
    verdict: Verdict, workItemId: Option<string>, phase: Option<string>, approved: Option<Fingerprint>)

  datatype Status = AwaitingApproval | Done

  datatype Snapshot = Snapshot(
    threadId: string, status: Status, workItemId: string, fingerprint: Option<Fingerprint>, trail: seq<string>,
    outcome: Option<Outcome>)

  datatype Paused = Paused(candidate: Candidate, trail: seq<string>)

  datatype RawDecision = RawDecision(
    approved: Option<bool>, approvedBy: Option<string>, editedTitle: Option<string>, editedComments: Option<string>)

  datatype Decision = Decision(approved: bool, editedTitle: Option<string>, editedComments: Option<string>)

  datatype Call =
    | Propose(workItemId: string)
    | SaveDraft(workItemId: string, draft: Draft)
    | RecordApproval(workItemId: string, commandId: string, expected: Fingerprint)

  datatype Backend = Backend(items: map<string, Item>, calls: seq<Call>)

  datatype Refusal = ExecutionEnabled | UnknownThread | NoSuchItem | DraftChanged | NoDraftText

  datatype Reply =
    | AwaitingReply(candidate: Candidate, trail: seq<string>)
    | DoneReply(outcome: Option<Outcome>, trail: seq<string>)
    | Refused(why: Refusal)

  /** A malformed or unsigned decision becomes a rejection without any text. */
  function ParseDecision(raw: RawDecision): Decision {
    if raw.approved.Some? && raw.approvedBy.Some? && raw.approvedBy.value != "" then
      Decision(raw.approved.value, raw.editedTitle, raw.editedComments)
    else Decision(false, None, None)
  }

  function CommandId(threadId: string, workItemId: string): string {
    "agent:" + threadId + ":approve:" + workItemId
  }

  /** The backend after an approval of this text was recorded, `between` being what another writer saved meanwhile. */
  function RecordIn(b: Backend, t: string, w: string, title: string, comments: string, between: Option<Draft>): Backend
    requires w in b.items
  {
    var proposed := b.(calls := b.calls + [Propose(w)]);
    var seen :=
      if between.Some? then proposed.(items := proposed.items[w := proposed.items[w].(draft := between)]) else proposed;
    var head := seen.items[w].draft;
    var saved :=
      if head.Some? && head.value.title == title && head.value.comments == comments then seen
      else
        var next := Draft(title, comments, (if head.Some? then head.value.version else 0) + 1);
        Backend(seen.items[w := seen.items[w].(draft := Some(next))], seen.calls + [SaveDraft(w, next)]);
    saved.(calls := saved.calls + [RecordApproval(w, CommandId(t, w), Print(saved.items[w].draft.value))])
  }

  datatype Recorded = Recorded(backend: Backend, reply: Reply)

  /** The record step shared by both paths: nothing on a rejection, nothing without text. */
  function PerformRecord(
    b: Backend, t: string, w: string, d: Decision, title: string, comments: string, trail: seq<string>, phase: string,
    between: Option<Draft>
  ): Recorded {
    if !d.approved then
      Recorded(b, DoneReply(Some(Outcome(Rejected, Some(w), Some(phase), None)), trail + ["recorded_rejected"]))
    else if Trim(comments) == "" then Recorded(b, Refused(NoDraftText))
    else if w !in b.items then Recorded(b, Refused(NoSuchItem))
    else
      var b' := RecordIn(b, t, w, title, comments, between);
      var outcome := Outcome(Approved, Some(w), Some(b'.items[w].phase), Some(Of(title, comments)));
      Recorded(b', DoneReply(Some(outcome), trail + ["recorded_approved"]))
  }

  function RuleTitle(subject: string): string {
    if subject == "" then "[답변]" else "[답변] " + subject
  }

  datatype Local = Local(store: map<string, Snapshot>, live: map<string, Paused>, backend: Backend)

  function StartLocal(l: Local, t: string, found: Option<Candidate>, trail: seq<string>): (Local, Reply) {
    if found.None? then (l, DoneReply(Some(Outcome(NoInquiry, None, None, None)), trail))
    else
      (l.(live := l.live[t := Paused(found.value, trail)],
          store := l.store[
            t := Snapshot(t, AwaitingApproval, found.value.workItemId, found.value.fingerprint, trail, None)]),
       AwaitingReply(found.value, trail))
  }

  function Finish(snap: Snapshot, r: Reply): Snapshot
    requires r.DoneReply?
  {
    snap.(status := Done, outcome := r.outcome, trail := r.trail)
  }

  /** In the process that parked it, the run goes on from memory. */
  function ResumeLive(l: Local, t: string, raw: RawDecision, between: Option<Draft>): (Local, Reply)
    requires t in l.live
  {
    var c := l.live[t].candidate;
    var d := ParseDecision(raw);
    var r := PerformRecord(
      l.backend, t, c.workItemId, d, d.editedTitle.GetOr(c.title), d.editedComments.GetOr(c.comments),
      l.live[t].trail + ["checkpoint_resumed"], c.phase, between);
    if r.reply.Refused? then (l, r.reply)
    else
      (Local(if t in l.store then l.store[t := Finish(l.store[t], r.reply)] else l.store, l.live - {t}, r.backend),
        r.reply)
  }

  predicate SawHead(snap: Snapshot, item: Item) {
    item.draft.Some? && snap.fingerprint == Some(Print(item.draft.value))
  }

  /** Elsewhere it is rebuilt from the snapshot and the backend. */
  function ResumeDurable(l: Local, t: string, raw: RawDecision, between: Option<Draft>): (Local, Reply) {
    if t !in l.store then (l, Refused(UnknownThread))
    else if l.store[t].status == Done then (l, DoneReply(l.store[t].outcome, l.store[t].trail))
    else
      var snap := l.store[t];
      var d := ParseDecision(raw);
      if snap.workItemId !in l.backend.items then (l, Refused(NoSuchItem))
      else
        var item := l.backend.items[snap.workItemId];
        var saw := SawHead(snap, item);
        if d.approved && d.editedComments.None? && !saw then (l, Refused(DraftChanged))
        else
          var title := d.editedTitle.GetOr(if saw then item.draft.value.title else RuleTitle(item.title));
          var comments := d.editedComments.GetOr(if saw then item.draft.value.comments else "");
          var r := PerformRecord(
            l.backend, t, snap.workItemId, d, title, comments, snap.trail + ["resumed_after_restart"], item.phase,
            between);
          if r.reply.Refused? then (l, r.reply)
          else (l.(store := l.store[t := Finish(snap, r.reply)], backend := r.backend), r.reply)
  }

  function ResumeLocal(l: Local, t: string, raw: RawDecision, between: Option<Draft>): (Local, Reply) {
    if t in l.live then ResumeLive(l, t, raw, between) else ResumeDurable(l, t, raw, between)
  }

  /* ---- the classes ---- */

  class InMemoryRunStore {
    var byThread: map<string, Snapshot>

    constructor ()
      ensures byThread == map[]
    {
      byThread := map[];
    }

    method Save(snapshot: Snapshot)
      modifies this
      ensures byThread == old(byThread)[snapshot.threadId := snapshot]
    {
      byThread := byThread[snapshot.threadId := snapshot];
    }

    method Load(threadId: string) returns (found: Option<Snapshot>)
      ensures found == if threadId in byThread then Some(byThread[threadId]) else None
    {
      found := if threadId in byThread then Some(byThread[threadId]) else None;
    }
  }

  /** The backend: inquiries with their head drafts, and the mutating calls received. */
  class SpringClient {
    var executionEnabled: bool
    var replyAdapters: nat
    var items: map<string, Item>
    var calls: seq<Call>

    constructor (executionEnabled: bool, replyAdapters: nat, items: map<string, Item>)
      ensures this.items == items && calls == []
    {
      this.executionEnabled, this.replyAdapters, this.items, calls := executionEnabled, replyAdapters, items, [];
    }

    predicate MaySend()
      reads this
    {
      executionEnabled || replyAdapters > 0
    }

    /** Someone else saves a head draft. */
    method Regenerate(w: string, draft: Draft)
      requires w in items
      modifies this`items
      ensures items == old(items)[w := old(items)[w].(draft := Some(draft))]
    {
      items := items[w := items[w].(draft := Some(draft))];
    }

    method ProposeReply(w: string)
      modifies this`calls
      ensures calls == old(calls) + [Propose(w)]
    {
      calls := calls + [Propose(w)];
    }

    method Save(w: string, title: string, comments: string, baseVersion: nat) returns (saved: Draft)
      requires w in items
      modifies this`items, this`calls
      ensures saved == Draft(title, comments, baseVersion + 1)
      ensures items == old(items)[w := old(items)[w].(draft := Some(saved))]
      ensures calls == old(calls) + [SaveDraft(w, saved)]
    {
      saved := Draft(title, comments, baseVersion + 1);
      items := items[w := items[w].(draft := Some(saved))];
      calls := calls + [SaveDraft(w, saved)];
    }

    method Approve(w: string, commandId: string, expected: Fingerprint)
      modifies this`calls
      ensures calls == old(calls) + [RecordApproval(w, commandId, expected)]
    {
      calls := calls + [RecordApproval(w, commandId, expected)];
    }
  }

  class InquiryAgentRuntime {
    const client: SpringClient
    const runStore: InMemoryRunStore
    var liveThreads: set<string>
    var checkpointer: map<string, Paused>

    ghost predicate Valid()
      reads this, runStore
    {
      && liveThreads <= checkpointer.Keys
      && forall t :: t in runStore.byThread ==> runStore.byThread[t].threadId == t
    }

    ghost function State(): Local
      requires Valid()
      reads this, runStore, client
    {
      Local(runStore.byThread, map t | t in liveThreads :: checkpointer[t], Backend(client.items, client.calls))
    }

    constructor (client: SpringClient, runStore: InMemoryRunStore)
      requires forall t :: t in runStore.byThread ==> runStore.byThread[t].threadId == t
      ensures this.client == client && this.runStore == runStore
      ensures Valid() && State() == Local(runStore.byThread, map[], Backend(client.items, client.calls))
    {
      this.client, this.runStore := client, runStore;
      liveThreads, checkpointer := {}, map[];
    }

    method Start(threadId: string, found: Option<Candidate>, trail: seq<string>) returns (reply: Reply)
      requires Valid()
      modifies this, runStore
      ensures Valid()
      ensures if client.MaySend() then reply == Refused(ExecutionEnabled) && State() == old(State())
              else (State(), reply) == StartLocal(old(State()), threadId, found, trail)
      ensures State().backend == old(State()).backend
      ensures if !client.MaySend() && found.Some? then
          var c := found.value;
          && reply == AwaitingReply(c, trail)
          && State().live == old(State()).live[threadId := Paused(c, trail)]
          && State().store
            == old(State()).store[
              threadId := Snapshot(threadId, AwaitingApproval, c.workItemId, c.fingerprint, trail, None)]
        else !reply.AwaitingReply? && State() == old(State())
    {
      if client.MaySend() { return Refused(ExecutionEnabled); }
      if found.None? { return DoneReply(Some(Outcome(NoInquiry, None, None, None)), trail); }
      checkpointer := checkpointer[threadId := Paused(found.value, trail)];
      liveThreads := liveThreads + {threadId};
      runStore.Save(Snapshot(threadId, AwaitingApproval, found.value.workItemId, found.value.fingerprint, trail, None));
      assert State().live == old(State()).live[threadId := Paused(found.value, trail)];
      reply := AwaitingReply(found.value, trail);
    }

    method Record(
      threadId: string, w: string, d: Decision, title: string, comments: string, trail: seq<string>, phase: string,
      between: Option<Draft>
    ) returns (reply: Reply)
      modifies client`items, client`calls
      ensures Recorded(Backend(client.items, client.calls), reply)
        == PerformRecord(Backend(old(client.items), old(client.calls)), threadId, w, d, title, comments, trail, phase,
          between)
    {
      if !d.approved {
        return DoneReply(Some(Outcome(Rejected, Some(w), Some(phase), None)), trail + ["recorded_rejected"]);
      }
      if Trim(comments) == "" { return Refused(NoDraftText); }
      if w !in client.items { return Refused(NoSuchItem); }
      client.ProposeReply(w);
      if between.Some? { client.Regenerate(w, between.value); }
      var head := client.items[w].draft;
      var fingerprint;
      if head.Some? && head.value.title == title && head.value.comments == comments {
        fingerprint := Print(head.value);
      } else {
        var saved := client.Save(w, title, comments, if head.Some? then head.value.version else 0);
        fingerprint := Print(saved);
      }
      client.Approve(w, CommandId(threadId, w), fingerprint);
      reply := DoneReply(
        Some(Outcome(Approved, Some(w), Some(client.items[w].phase), Some(fingerprint))),
        trail + ["recorded_approved"]);
    }

    method Resume(threadId: string, decision: RawDecision, between: Option<Draft>) returns (reply: Reply)
      requires Valid()
      modifies this, runStore, client`items, client`calls
      ensures Valid()
      ensures if old(client.MaySend()) then reply == Refused(ExecutionEnabled) && State() == old(State())
              else (State(), reply) == ResumeLocal(old(State()), threadId, decision, between)
    {
      if client.MaySend() { return Refused(ExecutionEnabled); }
      if threadId in liveThreads {
        var paused := checkpointer[threadId];
        var c := paused.candidate;
        var d := ParseDecision(decision);
        reply := Record(
          threadId, c.workItemId, d, d.editedTitle.GetOr(c.title), d.editedComments.GetOr(c.comments),
          paused.trail + ["checkpoint_resumed"], c.phase, between);
        if reply.Refused? { return; }
        liveThreads := liveThreads - {threadId};
        PersistDone(threadId, reply);
        assert State().live == old(State()).live - {threadId};
      } else {
        reply := ResumeFromDurable(threadId, decision, between);
      }
    }

    method ResumeFromDurable(threadId: string, decision: RawDecision, between: Option<Draft>) returns (reply: Reply)
      requires Valid() && threadId !in liveThreads
      modifies runStore, client`items, client`calls
      ensures Valid()
      ensures (State(), reply) == ResumeDurable(old(State()), threadId, decision, between)
    {
      var found := runStore.Load(threadId);
      if found.None? { return Refused(UnknownThread); }
      var snap := found.value;
      if snap.status == Done { return DoneReply(snap.outcome, snap.trail); }
      var d := ParseDecision(decision);
      if snap.workItemId !in client.items { return Refused(NoSuchItem); }
      var item := client.items[snap.workItemId];
      var sawHead := SawHead(snap, item);
      if d.approved && d.editedComments.None? && !sawHead { return Refused(DraftChanged); }
      var title := d.editedTitle.GetOr(if sawHead then item.draft.value.title else RuleTitle(item.title));
      var comments := d.editedComments.GetOr(if sawHead then item.draft.value.comments else "");
      reply := Record(
        threadId, snap.workItemId, d, title, comments, snap.trail + ["resumed_after_restart"], item.phase, between);
      if reply.Refused? { return; }
      runStore.Save(Finish(snap, reply));
    }

    method PersistDone(threadId: string, reply: Reply)
      requires Valid() && reply.DoneReply?
      modifies runStore
      ensures Valid()
      ensures runStore.byThread == if threadId in old(runStore.byThread)
        then old(runStore.byThread)[threadId := Finish(old(runStore.byThread)[threadId], reply)]
        else old(runStore.byThread)
    {
      var prior := runStore.Load(threadId);
      if prior.None? { return; }
      runStore.Save(Finish(prior.value, reply));
    }
  }

  /* ---- any number of processes on one store, and a backend others write to ---- */

  datatype World = World(store: map<string, Snapshot>, live: map<nat, map<string, Paused>>, backend: Backend)

  datatype Event =
    | Start(process: nat, sendable: bool, threadId: string, found: Option<Candidate>, trail: seq<string>)
    | Resume(process: nat, sendable: bool, threadId: string, decision: RawDecision, between: Option<Draft>)
    | Restart(process: nat)
    | Change(workItemId: string, item: Item)

  const EMPTY := World(map[], map[], Backend(map[], []))

  function LiveOf(w: World, p: nat): map<string, Paused> {
    if p in w.live then w.live[p] else map[]
  }

  function Lift(w: World, p: nat, l: Local): World { World(l.store, w.live[p := l.live], l.backend) }

  function React(w: World, e: Event): (World, Reply) {
    match e
    case Start(p, sendable, t, found, trail) =>
      if sendable then (w, Refused(ExecutionEnabled))
      else var (l, r) := StartLocal(Local(w.store, LiveOf(w, p), w.backend), t, found, trail); (Lift(w, p, l), r)
    case Resume(p, sendable, t, decision, between) =>
      if sendable then (w, Refused(ExecutionEnabled))
      else var (l, r) := ResumeLocal(Local(w.store, LiveOf(w, p), w.backend), t, decision, between); (Lift(w, p, l), r)
    case Restart(p) => (w.(live := w.live - {p}), Refused(UnknownThread))
    case Change(id, item) => (w.(backend := w.backend.(items := w.backend.items[id := item])), Refused(UnknownThread))
  }

  function Apply(w: World, e: Event): World { React(w, e).0 }

  function After(events: seq<Event>): World {
    if events == [] then EMPTY else Apply(After(events[..|events| - 1]), events[|events| - 1])
  }

  predicate Parks(e: Event, t: string, c: Candidate) {
    e.Start? && !e.sendable && e.threadId == t && e.found == Some(c)
  }

  ghost predicate ParkedAs(events: seq<Event>, t: string, c: Candidate) {
    exists i :: 0 <= i < |events| && Parks(events[i], t, c)
  }

  /** The fingerprint a drafter puts on a candidate is that of the text it shows. */
  ghost predicate WellMade(events: seq<Event>) {
    forall t, c :: ParkedAs(events, t, c) && c.fingerprint.Some? ==> c.fingerprint == Some(Of(c.title, c.comments))
  }

  ghost predicate StoredAs(events: seq<Event>, t: string, snap: Snapshot) {
    exists c :: ParkedAs(events, t, c) && snap.workItemId == c.workItemId && snap.fingerprint == c.fingerprint
  }

  ghost predicate ParkedWorld(w: World, events: seq<Event>) {
    && (forall t :: t in w.store ==> StoredAs(events, t, w.store[t]))
    && (forall p, t :: p in w.live && t in w.live[p] ==> ParkedAs(events, t, w.live[p][t].candidate))
  }

  lemma StillParked(events: seq<Event>, e: Event, t: string, c: Candidate)
    requires ParkedAs(events, t, c)
    ensures ParkedAs(events + [e], t, c)
  {
    var i :| 0 <= i < |events| && Parks(events[i], t, c);
    assert Parks((events + [e])[i], t, c);
  }

  lemma StillStored(events: seq<Event>, e: Event, t: string, snap: Snapshot)
    requires StoredAs(events, t, snap)
    ensures StoredAs(events + [e], t, snap)
  {
    var c :| ParkedAs(events, t, c) && snap.workItemId == c.workItemId && snap.fingerprint == c.fingerprint;
    StillParked(events, e, t, c);
  }

  lemma NowParked(events: seq<Event>, e: Event, t: string, c: Candidate)
    requires Parks(e, t, c)
    ensures ParkedAs(events + [e], t, c)
  {
    assert Parks((events + [e])[|events|], t, c);
  }

  lemma StepKeepsParked(w: World, events: seq<Event>, e: Event)
    requires ParkedWorld(w, events)
    ensures ParkedWorld(Apply(w, e), events + [e])
  {
    hide ParkedAs, PerformRecord, ParseDecision;
    var w' := Apply(w, e);
    var events' := events + [e];
    forall t, c | ParkedAs(events, t, c) ensures ParkedAs(events', t, c) { StillParked(events, e, t, c); }
    forall t, snap | StoredAs(events, t, snap) ensures StoredAs(events', t, snap) { StillStored(events, e, t, snap); }
    if e.Start? && !e.sendable && e.found.Some? { NowParked(events, e, e.threadId, e.found.value); }
    forall t | t in w'.store ensures StoredAs(events', t, w'.store[t]) {
      if t in w.store { assert StoredAs(events, t, w.store[t]); }
      if t in w.store && w'.store[t].workItemId == w.store[t].workItemId
        && w'.store[t].fingerprint == w.store[t].fingerprint {
        SameIdentity(events', t, w.store[t], w'.store[t]);
      }
    }
  }

  lemma SameIdentity(events: seq<Event>, t: string, a: Snapshot, b: Snapshot)
    requires StoredAs(events, t, a) && a.workItemId == b.workItemId && a.fingerprint == b.fingerprint
    ensures StoredAs(events, t, b)
  {
  }

  lemma {:induction false} Reachable(events: seq<Event>)
    ensures ParkedWorld(After(events), events)
  {
    if events != [] {
      var before := events[..|events| - 1];
      Reachable(before);
      StepKeepsParked(After(before), before, events[|events| - 1]);
      assert before + [events[|events| - 1]] == events;
    }
  }

  /* ---- the text an approval records ---- */

  /** The approval the backend received is of exactly this text, whoever wrote the head meanwhile. */
  lemma RecordsThisText(b: Backend, t: string, w: string, title: string, comments: string, between: Option<Draft>)
    requires w in b.items
    ensures var b' := RecordIn(b, t, w, title, comments, between);
      && b'.calls != [] && b'.calls[|b'.calls| - 1] == RecordApproval(w, CommandId(t, w), Of(title, comments))
      && |b.calls| < |b'.calls| && b.calls == b'.calls[..|b.calls|]
      && (forall i :: |b.calls| <= i < |b'.calls| - 1 ==> !b'.calls[i].RecordApproval?)
      && b'.items[w].draft.Some? && Print(b'.items[w].draft.value) == Of(title, comments)
  {
  }

  /** The head a record step reads: what another writer saved meanwhile, or what was there. */
  predicate ReadsText(head: Option<Draft>, title: string, comments: string) {
    head.Some? && head.value.title == title && head.value.comments == comments
  }

  /**
   * The calls of one approval, in order: the proposal; the draft saved as the next version unless the head
   * already is this text; the approval of that text. Of the inquiries only this head may change.
   */
  ghost predicate JustApproved(
    before: Backend, after: Backend, t: string, w: string, title: string, comments: string, between: Option<Draft>)
  {
    && w in before.items
    && var n := |before.calls|;
       var head := if between.Some? then between else before.items[w].draft;
       var version := (if head.Some? then head.value.version else 0) + 1;
       && n + 2 <= |after.calls| && after.calls[..n] == before.calls && after.calls[n] == Propose(w)
       && (if ReadsText(head, title, comments) then |after.calls| == n + 2
           else |after.calls| == n + 3 && after.calls[n + 1] == SaveDraft(w, Draft(title, comments, version)))
       && after.calls[|after.calls| - 1] == RecordApproval(w, "agent:" + t + ":approve:" + w, Of(title, comments))
       && after.items == before.items[w := before.items[w].(
            draft := if ReadsText(head, title, comments) then head else Some(Draft(title, comments, version)))]
  }

  lemma RecordsJustThat(b: Backend, t: string, w: string, title: string, comments: string, between: Option<Draft>)
    requires w in b.items
    ensures JustApproved(b, RecordIn(b, t, w, title, comments, between), t, w, title, comments, between)
  {
    var head := if between.Some? then between else b.items[w].draft;
    var seen := b.items[w := b.items[w].(draft := head)];
    assert seen == if between.Some? then b.items[w := b.items[w].(draft := between)] else b.items;
  }

  /** The head draft is the one the run parked with. */
  predicate HeadIsParked(item: Item, c: Candidate) {
    c.fingerprint.Some? && ReadsText(item.draft, c.title, c.comments)
  }

  /**
   * The text an approval is of. The person's own words win, title and comments each. Without them it is what
   * the run parked with; only after a restart, with comments of the person's own and the head no longer the
   * parked draft, the title is made of the inquiry's subject.
   */
  predicate TextOf(w: World, e: Event, c: Candidate, title: string, comments: string)
    requires e.Resume? && c.workItemId in w.backend.items
  {
    var item := w.backend.items[c.workItemId];
    && comments == e.decision.editedComments.GetOr(c.comments)
    && match e.decision.editedTitle
       case Some(own) => title == own
       case None =>
         title ==
           if e.threadId in LiveOf(w, e.process) || HeadIsParked(item, c) then c.title
           else if item.title == "" then "[답변]"
           else "[답변]" + " " + item.title
  }

  /** The candidate a resume is about: the one this process holds, or one the stored snapshot was made of. */
  predicate IsResumed(w: World, e: Event, c: Candidate)
    requires e.Resume?
  {
    if e.threadId in LiveOf(w, e.process) then c == LiveOf(w, e.process)[e.threadId].candidate
    else
      && e.threadId in w.store
      && w.store[e.threadId].workItemId == c.workItemId && w.store[e.threadId].fingerprint == c.fingerprint
  }

  predicate Approves(raw: RawDecision) {
    raw.approved == Some(true) && raw.approvedBy.Some? && raw.approvedBy.value != ""
  }

  ghost predicate ApprovesText(w: World, e: Event, w': World, c: Candidate, title: string, comments: string)
    requires e.Resume?
  {
    && c.workItemId in w.backend.items && IsResumed(w, e, c)
    && TextOf(w, e, c, title, comments) && Ink(comments) != ""
    && JustApproved(w.backend, w'.backend, e.threadId, c.workItemId, title, comments, e.between)
  }

  /**
   * Main result. Over any history of parks, resumes, restarts and drafts saved by others, on either path:
   * when a resume reaches the backend, the person approved, and what is recorded, call by call, is the
   * approval of the person's own title and comments or else of those the run parked with; a title is made of
   * the subject only where the parked one is gone.
   */
  lemma ApprovedText(events: seq<Event>, e: Event)
    requires WellMade(events) && e.Resume? && Apply(After(events), e).backend.calls != After(events).backend.calls
    ensures Approves(e.decision)
    ensures exists c, title, comments ::
      ParkedAs(events, e.threadId, c) && ApprovesText(After(events), e, Apply(After(events), e), c, title, comments)
  {
    hide ApprovesText;
    Reachable(events);
    var w := After(events);
    if e.threadId in LiveOf(w, e.process) { LiveText(w, events, e); } else { DurableText(w, events, e); }
  }

  lemma LiveText(w: World, events: seq<Event>, e: Event)
    requires ParkedWorld(w, events) && e.Resume? && Apply(w, e).backend.calls != w.backend.calls
    requires e.threadId in LiveOf(w, e.process)
    ensures Approves(e.decision)
    ensures exists c, title, comments ::
      ParkedAs(events, e.threadId, c) && ApprovesText(w, e, Apply(w, e), c, title, comments)
  {
    hide RecordIn, ParkedAs, JustApproved;
    var d := ParseDecision(e.decision);
    var c := w.live[e.process][e.threadId].candidate;
    var title, comments := d.editedTitle.GetOr(c.title), d.editedComments.GetOr(c.comments);
    assert d.approved && c.workItemId in w.backend.items;
    RecordsJustThat(w.backend, e.threadId, c.workItemId, title, comments, e.between);
    BlankIsInkless(comments);
    assert ParkedAs(events, e.threadId, c) && ApprovesText(w, e, Apply(w, e), c, title, comments);
  }

  function RestartTitle(w: World, e: Event, item: Item): string
    requires e.Resume? && e.threadId in w.store
  {
    ParseDecision(e.decision).editedTitle.GetOr(
      if SawHead(w.store[e.threadId], item) then item.draft.value.title else RuleTitle(item.title))
  }

  function RestartComments(w: World, e: Event, item: Item): string
    requires e.Resume? && e.threadId in w.store
  {
    ParseDecision(e.decision).editedComments.GetOr(
      if SawHead(w.store[e.threadId], item) then item.draft.value.comments else "")
  }

  lemma DurableRecords(w: World, e: Event)
    requires e.Resume? && Apply(w, e).backend.calls != w.backend.calls && e.threadId !in LiveOf(w, e.process)
    ensures Approves(e.decision) && e.threadId in w.store && w.store[e.threadId].workItemId in w.backend.items
    ensures var snap := w.store[e.threadId];
      var item := w.backend.items[snap.workItemId];
      && (SawHead(snap, item) || e.decision.editedComments.Some?)
      && Trim(RestartComments(w, e, item)) != ""
      && Apply(w, e).backend == RecordIn(
           w.backend, e.threadId, snap.workItemId, RestartTitle(w, e, item), RestartComments(w, e, item), e.between)
  {
    hide RecordIn, Trim, RuleTitle;
  }

  lemma RestartText(w: World, e: Event, c: Candidate)
    requires e.Resume? && e.threadId !in LiveOf(w, e.process) && e.threadId in w.store && Approves(e.decision)
    requires IsResumed(w, e, c) && c.workItemId in w.backend.items
    requires c.fingerprint.Some? ==> c.fingerprint == Some(Of(c.title, c.comments))
    requires SawHead(w.store[e.threadId], w.backend.items[c.workItemId]) || e.decision.editedComments.Some?
    ensures var item := w.backend.items[c.workItemId];
      TextOf(w, e, c, RestartTitle(w, e, item), RestartComments(w, e, item))
  {
    var item := w.backend.items[c.workItemId];
    assert SawHead(w.store[e.threadId], item) <==> HeadIsParked(item, c);
  }

  lemma DurableText(w: World, events: seq<Event>, e: Event)
    requires ParkedWorld(w, events) && WellMade(events) && e.Resume? && Apply(w, e).backend.calls != w.backend.calls
    requires e.threadId !in LiveOf(w, e.process)
    ensures Approves(e.decision)
    ensures exists c, title, comments ::
      ParkedAs(events, e.threadId, c) && ApprovesText(w, e, Apply(w, e), c, title, comments)
  {
    hide RecordIn, ParkedAs, JustApproved, Apply, RestartTitle, RestartComments, SawHead, TextOf, Approves;
    DurableRecords(w, e);
    var snap := w.store[e.threadId];
    assert StoredAs(events, e.threadId, snap);
    var c :| ParkedAs(events, e.threadId, c) && snap.workItemId == c.workItemId && snap.fingerprint == c.fingerprint;
    var item := w.backend.items[snap.workItemId];
    var title, comments := RestartTitle(w, e, item), RestartComments(w, e, item);
    RestartText(w, e, c);
    RecordsJustThat(w.backend, e.threadId, c.workItemId, title, comments, e.between);
    BlankIsInkless(comments);
    assert ApprovesText(w, e, Apply(w, e), c, title, comments);
  }

  /** After a restart an approval without text is refused exactly when the head is no longer the parked draft. */
  lemma RefusedWhenTheDraftChanged(events: seq<Event>, e: Event)
    requires e.Resume? && !e.sendable && e.threadId !in LiveOf(After(events), e.process)
    requires e.threadId in After(events).store && After(events).store[e.threadId].status == AwaitingApproval
    requires After(events).store[e.threadId].workItemId in After(events).backend.items
    ensures var w := After(events);
      var d := ParseDecision(e.decision);
      var snap := w.store[e.threadId];
      var (w', r) := React(w, e);
      && (r == Refused(DraftChanged) <==>
           d.approved && d.editedComments.None? && !SawHead(snap, w.backend.items[snap.workItemId]))
      && (r.Refused? ==> w'.store == w.store && w'.backend == w.backend)
  {
    hide RecordIn;
  }

  /** A decision that does not approve reaches nothing: no call, no head changed. */
  lemma OnlyAnApprovalRecords(w: World, e: Event)
    requires e.Resume? && !ParseDecision(e.decision).approved
    ensures Apply(w, e).backend == w.backend
  {
  }

  /**
   * What a resume that records answers: the person's verdict on the parked inquiry, its phase, the text
   * approved, and the trail with how it was resumed and what was recorded.
   */
  lemma WhatIsTold(w: World, e: Event)
    requires e.Resume? && !e.sendable && React(w, e).1.DoneReply?
    requires e.threadId in LiveOf(w, e.process) || w.store[e.threadId].status == AwaitingApproval
    ensures var (w', r) := React(w, e);
      var t, yes := e.threadId, Approves(e.decision);
      var held := t in LiveOf(w, e.process);
      var id := if held then LiveOf(w, e.process)[t].candidate.workItemId else w.store[t].workItemId;
      var trail := if held then LiveOf(w, e.process)[t].trail else w.store[t].trail;
      && r.trail == trail + [
           if held then "checkpoint_resumed" else "resumed_after_restart",
           if yes then "recorded_approved" else "recorded_rejected"]
      && r.outcome.Some? && r.outcome.value.workItemId == Some(id)
      && (if yes then
            && r.outcome.value.verdict == Approved && id in w.backend.items
            && r.outcome.value.phase == Some(w.backend.items[id].phase)
            && w'.backend.calls != []
            && w'.backend.calls[|w'.backend.calls| - 1].RecordApproval?
            && r.outcome.value.approved == Some(w'.backend.calls[|w'.backend.calls| - 1].expected)
          else
            && r.outcome.value.verdict == Rejected && r.outcome.value.approved.None?
            && (held ==> r.outcome.value.phase == Some(LiveOf(w, e.process)[t].candidate.phase))
            && (!held ==> id in w.backend.items && r.outcome.value.phase == Some(w.backend.items[id].phase)))
      && w'.store == (
           if t !in w.store then w.store
           else w.store[t := w.store[t].(status := Done, outcome := r.outcome, trail := r.trail)])
      && forall p :: LiveOf(w', p) == LiveOf(w, p) - if p == e.process then {t} else {}
  {
    hide RuleTitle, Trim, SawHead;
    if Approves(e.decision) {
      var held := e.threadId in LiveOf(w, e.process);
      var id := if held then LiveOf(w, e.process)[e.threadId].candidate.workItemId else w.store[e.threadId].workItemId;
      assert id in w.backend.items;
    }
  }

  predicate Malformed(raw: RawDecision) {
    raw.approved.None? || raw.approvedBy == None || raw.approvedBy == Some("")
  }

  /** There is something here to resume: a thread this process holds, or a waiting one whose inquiry is still there. */
  predicate Resumable(w: World, p: nat, t: string) {
    t in LiveOf(w, p)
    || (t in w.store && w.store[t].status == AwaitingApproval && w.store[t].workItemId in w.backend.items)
  }

  predicate Rejects(o: Option<Outcome>) { o.Some? && o.value.verdict == Rejected }

  /**
   * A malformed or unsigned decision, edited text and approval in it notwithstanding, leaves the backend as
   * it is on both paths; and where there is something to resume, it is answered and stored as a rejection.
   */
  lemma MalformedRejects(w: World, e: Event)
    requires e.Resume? && !e.sendable && Malformed(e.decision)
    ensures var (w', r) := React(w, e);
      && w'.backend == w.backend
      && (Resumable(w, e.process, e.threadId) ==>
           && r.DoneReply? && Rejects(r.outcome)
           && (e.threadId in w.store ==>
                w'.store == w.store[
                  e.threadId := w.store[e.threadId].(status := Done, outcome := r.outcome, trail := r.trail)]))
      && (!Resumable(w, e.process, e.threadId) ==> w'.store == w.store)
  {
  }

  /** No history in which nobody approves makes a call or stores an approval, whatever else happens in it. */
  lemma NothingWithoutAnApproval(events: seq<Event>)
    requires forall i :: 0 <= i < |events| && events[i].Resume? ==> !ParseDecision(events[i].decision).approved
    ensures var w := After(events);
      && w.backend.calls == []
      && forall t :: t in w.store && w.store[t].outcome.Some? ==> w.store[t].outcome.value.verdict != Approved
  {
    NoCalls(events);
    StoredApprovalsAreRecorded(events);
  }

  lemma {:induction false} NoCalls(events: seq<Event>)
    requires forall i :: 0 <= i < |events| && events[i].Resume? ==> !ParseDecision(events[i].decision).approved
    ensures After(events).backend.calls == []
  {
    if events != [] {
      NoCalls(events[..|events| - 1]);
      var e := events[|events| - 1];
      if e.Resume? { OnlyAnApprovalRecords(After(events[..|events| - 1]), e); }
      hide ParseDecision, StartLocal, ResumeLocal;
    }
  }

  /* ---- a finished thread ---- */

  /** On the restart path a finished thread is replayed with no call, in every process. */
  lemma DoneIsReplayed(w: World, e: Event)
    requires e.Resume? && !e.sendable && e.threadId in w.store && w.store[e.threadId].status == Done
    requires e.threadId !in LiveOf(w, e.process)
    ensures var (w', r) := React(w, e);
      && r == DoneReply(w.store[e.threadId].outcome, w.store[e.threadId].trail)
      && w'.store == w.store && w'.backend == w.backend
  {
  }

  ghost predicate LiveNowhere(w: World, t: string) {
    forall p :: p in w.live ==> t !in w.live[p]
  }

  ghost predicate NeverParks(events: seq<Event>, t: string) {
    forall i :: 0 <= i < |events| ==> !(events[i].Start? && events[i].threadId == t)
  }

  function AfterFrom(w: World, events: seq<Event>): World {
    if events == [] then w else Apply(AfterFrom(w, events[..|events| - 1]), events[|events| - 1])
  }

  /** A thread that is finished and live nowhere stays so, whatever else happens. */
  lemma {:induction false} FinishedStays(w: World, rest: seq<Event>, t: string)
    requires t in w.store && w.store[t].status == Done && LiveNowhere(w, t) && NeverParks(rest, t)
    ensures var w' := AfterFrom(w, rest); t in w'.store && w'.store[t] == w.store[t] && LiveNowhere(w', t)
  {
    if rest != [] {
      var front, e := rest[..|rest| - 1], rest[|rest| - 1];
      FinishedStays(w, front, t);
      FinishedStep(AfterFrom(w, front), e, t);
    }
  }

  lemma FinishedStep(w: World, e: Event, t: string)
    requires t in w.store && w.store[t].status == Done && LiveNowhere(w, t) && !(e.Start? && e.threadId == t)
    ensures var w' := Apply(w, e); t in w'.store && w'.store[t] == w.store[t] && LiveNowhere(w', t)
  {
    hide PerformRecord, ParseDecision, SawHead;
  }

  /**
   * Main result. Once a thread is finished and no process still holds it, every later resume in any process,
   * after any restarts and whatever others write, returns the same outcome and trail and records nothing.
   */
  lemma FirstOutcomeStands(w: World, rest: seq<Event>, again: Event)
    requires again.Resume? && !again.sendable && again.threadId in w.store && w.store[again.threadId].status == Done
    requires LiveNowhere(w, again.threadId) && NeverParks(rest, again.threadId)
    ensures var w' := AfterFrom(w, rest);
      var (w'', r) := React(w', again);
      && r == DoneReply(w.store[again.threadId].outcome, w.store[again.threadId].trail)
      && w''.store == w'.store && w''.backend == w'.backend
  {
    FinishedStays(w, rest, again.threadId);
    DoneIsReplayed(AfterFrom(w, rest), again);
  }

  /**
   * The process that parked a thread does not look at the store first, so it records again. A resume of a
   * finished thread reaches the backend exactly when the thread is still live there and is approved with text.
   */
  lemma DoneIsRecordedAgain(w: World, e: Event)
    requires e.Resume? && !e.sendable && e.threadId in w.store && w.store[e.threadId].status == Done
    ensures Apply(w, e).backend.calls != w.backend.calls <==>
      && e.threadId in LiveOf(w, e.process)
      && var c := LiveOf(w, e.process)[e.threadId].candidate;
         var d := ParseDecision(e.decision);
         && d.approved && Trim(d.editedComments.GetOr(c.comments)) != "" && c.workItemId in w.backend.items
  {
    hide RecordIn;
    if e.threadId in LiveOf(w, e.process) {
      var c := LiveOf(w, e.process)[e.threadId].candidate;
      var d := ParseDecision(e.decision);
      if c.workItemId in w.backend.items {
        RecordsThisText(
          w.backend, e.threadId, c.workItemId, d.editedTitle.GetOr(c.title), d.editedComments.GetOr(c.comments),
          e.between);
      }
    }
  }

  /** What the record step in the parking process asks for: a rejection, or text for an inquiry that is there. */
  predicate Recordable(w: World, c: Candidate, d: Decision) {
    !d.approved || (Trim(d.editedComments.GetOr(c.comments)) != "" && c.workItemId in w.backend.items)
  }

  /** A stored outcome is replaced by what the process that parked the thread records, and by nothing else. */
  predicate Replaced(w: World, e: Event)
    requires e.Resume?
  {
    e.threadId in LiveOf(w, e.process)
    && Recordable(w, LiveOf(w, e.process)[e.threadId].candidate, ParseDecision(e.decision))
  }

  /**
   * Main result. Resuming a finished thread leaves its snapshot as it is unless this process still holds it
   * and the decision can be recorded; then the snapshot is that of the new outcome, and the verdict turns
   * exactly when the person now says the other thing.
   */
  lemma FinishedChanges(w: World, e: Event)
    requires e.Resume? && !e.sendable && e.threadId in w.store && w.store[e.threadId].status == Done
    ensures var (w', r) := React(w, e);
      var snap := w.store[e.threadId];
      && (Replaced(w, e) ==> r.DoneReply?)
      && w'.store == w.store[e.threadId := if Replaced(w, e) then Finish(snap, r) else snap]
      && (snap.outcome.Some? ==>
           && w'.store[e.threadId].outcome.Some?
           && (w'.store[e.threadId].outcome.value.verdict != snap.outcome.value.verdict <==>
                && Replaced(w, e)
                && snap.outcome.value.verdict != if ParseDecision(e.decision).approved then Approved else Rejected))
  {
    hide RecordIn, ParseDecision;
    var (w', r) := React(w, e);
    if !Replaced(w, e) {
      assert w'.store == w.store;
      assert w.store[e.threadId := w.store[e.threadId]] == w.store;
    }
  }

  ghost predicate ApprovedThenDeclined(w: World, t: string) {
    && t in w.store && w.store[t].status == Done && w.store[t].outcome.Some?
    && w.store[t].outcome.value.verdict == Rejected
    && exists i :: 0 <= i < |w.backend.calls| && w.backend.calls[i].RecordApproval?
  }

  /**
   * A recorded approval can end up stored as a rejection: approved in another process, then declined in the
   * one that parked it.
   */
  lemma ApprovalOverwritten(w: World, p: nat, other: nat, t: string, yes: RawDecision, no: RawDecision)
    requires t in LiveOf(w, p) && t !in LiveOf(w, other) && t in w.store && w.store[t].status == AwaitingApproval
    requires w.store[t].workItemId in w.backend.items && SawHead(w.store[t], w.backend.items[w.store[t].workItemId])
    requires var d := ParseDecision(yes);
      d.approved && d.editedTitle.None? && d.editedComments.None?
      && Trim(w.backend.items[w.store[t].workItemId].draft.value.comments) != ""
    requires !ParseDecision(no).approved
    ensures ApprovedThenDeclined(Apply(Apply(w, Resume(other, false, t, yes, None)), Resume(p, false, t, no, None)), t)
  {
    hide RecordIn;
    var item := w.backend.items[w.store[t].workItemId];
    RecordsThisText(w.backend, t, w.store[t].workItemId, item.draft.value.title, item.draft.value.comments, None);
    var w1 := Apply(w, Resume(other, false, t, yes, None));
    assert w1.backend.calls[|w1.backend.calls| - 1].RecordApproval?;
    assert LiveOf(w1, p) == LiveOf(w, p);
    var w2 := Apply(w1, Resume(p, false, t, no, None));
    assert w2.backend == w1.backend;
  }

  /* ---- what is stored is what happened ---- */

  ghost predicate Backed(calls: seq<Call>, t: string, o: Outcome) {
    o.verdict == Approved ==>
      && o.workItemId.Some? && o.approved.Some?
      && RecordApproval(o.workItemId.value, CommandId(t, o.workItemId.value), o.approved.value) in calls
  }

  ghost predicate StoreBacked(w: World) {
    forall t :: t in w.store ==>
      if w.store[t].status == Done then w.store[t].outcome.Some? && Backed(w.backend.calls, t, w.store[t].outcome.value)
      else w.store[t].outcome.None?
  }

  lemma RecordIsBacked(
    b: Backend, t: string, w: string, d: Decision, title: string, comments: string, trail: seq<string>, phase: string,
    between: Option<Draft>)
    ensures var r := PerformRecord(b, t, w, d, title, comments, trail, phase, between);
      && |b.calls| <= |r.backend.calls| && b.calls == r.backend.calls[..|b.calls|]
      && (r.reply.DoneReply? ==> r.reply.outcome.Some? && Backed(r.backend.calls, t, r.reply.outcome.value))
      && !r.reply.AwaitingReply?
  {
    hide RecordIn;
    if d.approved && Trim(comments) != "" && w in b.items {
      RecordsThisText(b, t, w, title, comments, between);
      var calls := RecordIn(b, t, w, title, comments, between).calls;
      assert calls[|calls| - 1] in calls;
    }
  }

  lemma BackedStays(calls: seq<Call>, more: seq<Call>, t: string, o: Outcome)
    requires Backed(calls, t, o) && |calls| <= |more| && calls == more[..|calls|]
    ensures Backed(more, t, o)
  {
  }

  lemma StepIsBacked(w: World, e: Event)
    requires StoreBacked(w)
    ensures StoreBacked(Apply(w, e))
  {
    if e.Resume? && !e.sendable {
      hide PerformRecord, ParseDecision, Backed;
      var t := e.threadId;
      var d := ParseDecision(e.decision);
      var w' := Apply(w, e);
      if t in LiveOf(w, e.process) {
        var c := LiveOf(w, e.process)[t].candidate;
        RecordIsBacked(
          w.backend, t, c.workItemId, d, d.editedTitle.GetOr(c.title), d.editedComments.GetOr(c.comments),
          LiveOf(w, e.process)[t].trail + ["checkpoint_resumed"], c.phase, e.between);
      } else if t in w.store && w.store[t].workItemId in w.backend.items {
        var snap := w.store[t];
        var item := w.backend.items[snap.workItemId];
        var saw := SawHead(snap, item);
        RecordIsBacked(
          w.backend, t, snap.workItemId, d,
          d.editedTitle.GetOr(if saw then item.draft.value.title else RuleTitle(item.title)),
          d.editedComments.GetOr(if saw then item.draft.value.comments else ""), snap.trail + ["resumed_after_restart"],
          item.phase, e.between);
      }
      forall u | u in w'.store && u != t && w'.store[u].status == Done
        ensures Backed(w'.backend.calls, u, w'.store[u].outcome.value)
      {
        BackedStays(w.backend.calls, w'.backend.calls, u, w.store[u].outcome.value);
      }
      if t in w.store && w'.store[t] == w.store[t] && w.store[t].status == Done {
        BackedStays(w.backend.calls, w'.backend.calls, t, w.store[t].outcome.value);
      }
    }
  }

  /**
   * In every history, a stored approval is one the backend received, of that very text; a waiting thread has no
   * outcome.
   */
  lemma {:induction false} StoredApprovalsAreRecorded(events: seq<Event>)
    ensures StoreBacked(After(events))
  {
    hide Apply;
    if events != [] {
      StoredApprovalsAreRecorded(events[..|events| - 1]);
      StepIsBacked(After(events[..|events| - 1]), events[|events| - 1]);
    }
  }
}
