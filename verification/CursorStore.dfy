/**
 * The durable execution cursor: what of a stopped procedure is kept, and the claim that lets one caller
 * continue it.
 */
module CursorStore {
  import opened Base
  import opened Claiming
  import opened Procedure

  datatype AopCheckpoint = AopCheckpoint(
    threadId: string, conversationId: string, procedureId: ProcedureId, procedureVersion: string, step: string,
    stepTrail: seq<StepId>, refs: Refs, draftId: Option<string>, approvalId: Option<string>,
    terminal: Option<TerminalKind>, absence: Option<string>, interrupt: Option<InterruptKind>, updatedAt: string)

  const REF_KEYS := {
    "workItemId", "inquiryId", "reviewId", "productId", "issueId", "candidateId", "channelCode", "draftVersion"}

  /** The declared references that hold a value; anything else does not travel. */
  function Sanitize(cp: AopCheckpoint): AopCheckpoint {
    cp.(refs := map k | k in cp.refs && k in REF_KEYS && cp.refs[k].Some? :: cp.refs[k])
  }

  lemma SanitizeKeepsTheWhitelist(cp: AopCheckpoint)
    ensures Sanitize(Sanitize(cp)) == Sanitize(cp)
    ensures Sanitize(cp).refs.Keys <= REF_KEYS && Sanitize(cp).(refs := cp.refs) == cp
    ensures forall k :: k in REF_KEYS && k in cp.refs && cp.refs[k].Some? ==>
      k in Sanitize(cp).refs && Sanitize(cp).refs[k] == cp.refs[k]
    ensures forall k :: k in Sanitize(cp).refs ==>
      k in cp.refs && Sanitize(cp).refs[k] == cp.refs[k] && cp.refs[k].Some?
  {
    assert Sanitize(Sanitize(cp)).refs == Sanitize(cp).refs;
  }

  /** The store's whole state. */
  datatype Cursors = Cursors(byThread: map<string, AopCheckpoint>, claimed: set<string>)

  function SaveCursor(cs: Cursors, cp: AopCheckpoint): Cursors {
    Cursors(cs.byThread[cp.threadId := Sanitize(cp)], cs.claimed - {cp.threadId})
  }

  function LoadCursor(cs: Cursors, threadId: string): Option<AopCheckpoint> {
    if threadId in cs.byThread then Some(cs.byThread[threadId]) else None
  }

  function DeleteCursor(cs: Cursors, threadId: string): Cursors {
    Cursors(cs.byThread - {threadId}, cs.claimed - {threadId})
  }

  function ClaimOf(cs: Cursors, threadId: string): ClaimOutcome {
    if threadId !in cs.byThread then AlreadyDone
    else if cs.byThread[threadId].terminal.Some? && cs.byThread[threadId].terminal != Some(WaitingHuman) then
      AlreadyDone
    else if threadId in cs.claimed then Conflict
    else Claimed
  }

  function ClaimCursor(cs: Cursors, threadId: string): Cursors {
    if ClaimOf(cs, threadId).Claimed? then cs.(claimed := cs.claimed + {threadId}) else cs
  }

  class MemoryAopCheckpointStore {
    var byThread: map<string, AopCheckpoint>
    var claimed: set<string>

    constructor ()
      ensures State() == Cursors(map[], {})
    {
      byThread, claimed := map[], {};
    }

    ghost function State(): Cursors
      reads this
    {
      Cursors(byThread, claimed)
    }

    method Save(checkpoint: AopCheckpoint)
      modifies this
      ensures State() == SaveCursor(old(State()), checkpoint)
      ensures byThread == old(byThread)[checkpoint.threadId := Sanitize(checkpoint)]
      ensures claimed == old(claimed) - {checkpoint.threadId}
    {
      byThread := byThread[checkpoint.threadId := Sanitize(checkpoint)];
      claimed := claimed - {checkpoint.threadId};
    }

    method Load(threadId: string) returns (found: Option<AopCheckpoint>)
      ensures found == LoadCursor(State(), threadId)
      ensures found.Some? <==> threadId in byThread
      ensures found.Some? ==> found.value == byThread[threadId]
    {
      found := if threadId in byThread then Some(byThread[threadId]) else None;
    }

    method Delete(threadId: string)
      modifies this
      ensures State() == DeleteCursor(old(State()), threadId)
      ensures byThread == old(byThread) - {threadId} && claimed == old(claimed) - {threadId}
    {
      byThread := byThread - {threadId};
      claimed := claimed - {threadId};
    }

    method Claim(threadId: string) returns (outcome: ClaimOutcome)
      modifies this
      ensures outcome == ClaimOf(old(State()), threadId) && State() == ClaimCursor(old(State()), threadId)
      ensures outcome.AlreadyDone? <==>
        threadId in byThread ==> byThread[threadId].terminal !in {None, Some(WaitingHuman)}
      ensures outcome.Claimed? <==> !outcome.AlreadyDone? && threadId !in old(claimed)
      ensures byThread == old(byThread) && claimed == old(claimed) + if outcome.Claimed? then {threadId} else {}
    {
      if threadId !in byThread { return AlreadyDone; }
      var found := byThread[threadId];
      if found.terminal.Some? && found.terminal != Some(WaitingHuman) { return AlreadyDone; }
      if threadId in claimed { return Conflict; }
      claimed := claimed + {threadId};
      outcome := Claimed;
    }
  }
}
