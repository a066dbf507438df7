/**
 * Resuming over HTTP on the backend's run store, the one a deployed host uses. A start inserts a row and
 * never overwrites one; a claim is a status with a lease, and the lease runs out; a save is guarded by the
 * version the request saw last. A request works as it does at the in-memory store.
 */
module LeasedGate {
  import opened Claiming
  import opened Counting
  import ResumeGate

  type Outcome = ResumeGate.Outcome

  datatype Status = Parked | Resuming(claimedAt: nat) | Done(outcome: Outcome)

  datatype Row = Row(version: nat, status: Status)

  datatype Stage = Admitted | Holding | Recorded(outcome: Outcome)
    | Replied(outcome: Outcome, replayed: bool) | Refused | Failed

  /** `seen` is the version its client saw last; `minted` whether the guided session was minted for it. */
  datatype Request = Request(threadId: string, claim: ClaimOutcome, seen: nat, stage: Stage, minted: bool)

  datatype World = World(now: nat, rows: map<string, Row>, requests: seq<Request>, mints: seq<string>)

  datatype Event =
    | Start(threadId: string)
    | Tick(seconds: nat)
    | Claim(threadId: string)
    | Load(request: nat)
    | Mint(request: nat)
    | Record(request: nat, note: string)
    | Fail(request: nat)
    | Save(request: nat, answered: bool)

  const CLAIM_LEASE := 120

  const EMPTY := World(0, map[], [], [])

  /** Waiting for a person, or claimed so long ago that the claimer is taken for dead. */
  predicate Claimable(w: World, t: string) {
    && t in w.rows
    && match w.rows[t].status
       case Parked => true
       case Resuming(claimedAt) => claimedAt + CLAIM_LEASE < w.now
       case Done(_) => false
  }

  function ClaimOf(w: World, t: string): ClaimOutcome {
    if Claimable(w, t) then Claimed
    else if t in w.rows && w.rows[t].status.Done? then AlreadyDone
    else Conflict
  }

  predicate Busy(s: Stage) { s.Admitted? || s.Holding? || s.Recorded? }

  function With(w: World, n: nat, r: Request): World
    requires n < |w.requests|
  {
    w.(requests := w.requests[n := r])
  }

  function Version(w: World, t: string): nat { if t in w.rows then w.rows[t].version else 0 }

  function LetIn(w: World, t: string): World {
    var c := ClaimOf(w, t);
    var w' := if c.Claimed? then w.(rows := w.rows[t := Row(w.rows[t].version + 1, Resuming(w.now))]) else w;
    w'.(requests := w.requests + [Request(t, c, Version(w', t), if c.Conflict? then Refused else Admitted, false)])
  }

  /** The guarded write: it counts only on the version last seen, and its answer may be lost. */
  function Saving(w: World, n: nat, answered: bool): World
    requires n < |w.requests| && w.requests[n].stage.Recorded?
  {
    var r := w.requests[n];
    if r.threadId in w.rows && w.rows[r.threadId].version == r.seen then
      With(w, n, r.(stage := if answered then Replied(r.stage.outcome, false) else Failed))
      .(rows := w.rows[r.threadId := Row(r.seen + 1, Done(r.stage.outcome))])
    else With(w, n, r.(stage := Failed))
  }

  function Apply(w: World, e: Event): World {
    match e
    case Start(t) => if t in w.rows then w else w.(rows := w.rows[t := Row(1, Parked)])
    case Tick(seconds) => w.(now := w.now + seconds)
    case Claim(t) => LetIn(w, t)
    case Load(n) =>
      if n < |w.requests| && w.requests[n].stage.Admitted? && w.requests[n].threadId in w.rows then
        var r := w.requests[n];
        var row := w.rows[r.threadId];
        if row.status.Done? then With(w, n, r.(seen := row.version, stage := Replied(row.status.outcome, true)))
        else With(w, n, r.(seen := row.version, stage := Holding))
      else w
    case Mint(n) =>
      if n < |w.requests| && w.requests[n].stage.Holding? && !w.requests[n].minted then
        With(w, n, w.requests[n].(minted := true)).(mints := w.mints + [w.requests[n].threadId])
      else w
    case Record(n, note) =>
      if n < |w.requests| && w.requests[n].stage.Holding? then
        With(w, n, w.requests[n].(stage := Recorded(ResumeGate.Outcome(w.requests[n].minted, note))))
      else w
    case Fail(n) =>
      if n < |w.requests| && Busy(w.requests[n].stage) then With(w, n, w.requests[n].(stage := Failed)) else w
    case Save(n, answered) =>
      if n < |w.requests| && w.requests[n].stage.Recorded? then Saving(w, n, answered) else w
  }

  function After(events: seq<Event>): World {
    if events == [] then EMPTY else Apply(After(events[..|events| - 1]), events[|events| - 1])
  }

  lemma Next(events: seq<Event>, e: Event)
    ensures After(events + [e]) == Apply(After(events), e)
  {
    hide Apply;
    assert (events + [e])[..|events|] == events;
  }

  /* ---- the invariant ---- */

  ghost predicate On(w: World, n: int, t: string) { 0 <= n < |w.requests| && w.requests[n].threadId == t }

  predicate Sound(r: Request) {
    && (r.claim.Conflict? <==> r.stage.Refused?)
    && (r.stage.Refused? || r.stage.Admitted? ==> !r.minted)
    && (r.stage.Recorded? ==> r.stage.outcome.approved == r.minted)
  }

  /** The version a request would save on is of a row that is not finished; what is answered is what is stored. */
  predicate Fits(r: Request, row: Row) {
    && r.seen <= row.version
    && (r.claim.AlreadyDone? ==> row.status.Done? && !r.minted && !r.stage.Holding? && !r.stage.Recorded?)
    && ((r.stage.Holding? || r.stage.Recorded?) && r.seen == row.version ==> !row.status.Done?)
    && (r.stage.Replied? ==> row.status == Done(r.stage.outcome))
    && (r.stage.Replied? && !r.stage.replayed ==> r.claim.Claimed?)
  }

  predicate RequestOk(w: World, r: Request) {
    && Sound(r)
    && (!r.claim.Conflict? ==>
         r.threadId in w.rows && !w.rows[r.threadId].status.Parked? && Fits(r, w.rows[r.threadId]))
  }

  ghost predicate Inv(w: World) {
    && (forall n :: 0 <= n < |w.requests| ==> RequestOk(w, w.requests[n]))
    && (forall t :: t in w.rows && w.rows[t].status.Resuming? ==> w.rows[t].status.claimedAt <= w.now)
  }

  /** A row stays, or gets a higher version; a finished one stays. */
  predicate RowMoves(before: Row, after: Row) {
    after == before || (before.version < after.version && !before.status.Done? && !after.status.Parked?)
  }

  ghost predicate RowsMove(w: World, w': World) {
    forall t :: t in w.rows ==> t in w'.rows && RowMoves(w.rows[t], w'.rows[t])
  }

  lemma RowStep(w: World, e: Event)
    requires Inv(w)
    ensures RowsMove(w, Apply(w, e))
  {
    if e.Save? && e.request < |w.requests| { assert RequestOk(w, w.requests[e.request]); }
    hide Fits, Sound;
  }

  lemma RequestKeeps(w: World, w': World, r: Request)
    requires RequestOk(w, r) && RowsMove(w, w')
    ensures RequestOk(w', r)
  {
  }

  /** The request a step is about: a new one, or one that moved. */
  lemma MovedOk(w: World, e: Event, n: nat)
    requires Inv(w) && n < |Apply(w, e).requests|
    requires n < |w.requests| ==> Apply(w, e).requests[n] != w.requests[n]
    ensures RequestOk(Apply(w, e), Apply(w, e).requests[n])
  {
    if n < |w.requests| { assert RequestOk(w, w.requests[n]); }
  }

  lemma Keeps(w: World, e: Event)
    requires Inv(w)
    ensures Inv(Apply(w, e))
  {
    var w' := Apply(w, e);
    RowStep(w, e);
    ClaimsInThePast(w, e);
    forall n | 0 <= n < |w'.requests| ensures RequestOk(w', w'.requests[n]) {
      if n < |w.requests| && w'.requests[n] == w.requests[n] {
        RequestKeeps(w, w', w.requests[n]);
      } else {
        MovedOk(w, e, n);
      }
      hide *;
    }
  }

  lemma ClaimsInThePast(w: World, e: Event)
    requires Inv(w)
    ensures var w' := Apply(w, e);
      forall t :: t in w'.rows && w'.rows[t].status.Resuming? ==> w'.rows[t].status.claimedAt <= w'.now
  {
    hide RequestOk;
  }

  lemma {:induction false} Reachable(events: seq<Event>)
    ensures Inv(After(events))
  {
    if events != [] {
      hide Apply, Inv;
      Reachable(events[..|events| - 1]);
      Keeps(After(events[..|events| - 1]), events[|events| - 1]);
    } else {
      assert Inv(EMPTY);
    }
  }

  /* ---- one outcome ---- */

  predicate Spent(w: World, t: string) { t in w.rows && w.rows[t].status.Done? }

  lemma DoneStays(w: World, e: Event, t: string)
    requires Inv(w) && Spent(w, t)
    ensures Spent(Apply(w, e), t) && Apply(w, e).rows[t] == w.rows[t]
  {
    if e.Save? && e.request < |w.requests| { assert RequestOk(w, w.requests[e.request]); }
  }

  lemma {:induction false} DoneStaysDone(events: seq<Event>, rest: seq<Event>, t: string)
    requires Spent(After(events), t)
    ensures Spent(After(events + rest), t) && After(events + rest).rows[t] == After(events).rows[t]
  {
    if rest == [] {
      assert events + rest == events;
    } else {
      hide Apply, Inv;
      var before, e := events + rest[..|rest| - 1], rest[|rest| - 1];
      DoneStaysDone(events, rest[..|rest| - 1], t);
      Reachable(before);
      DoneStays(After(before), e, t);
      Next(before, e);
      assert events + rest == before + [e];
    }
  }

  ghost predicate AnsweredOn(w: World, n: int, t: string) { On(w, n, t) && w.requests[n].stage.Replied? }

  /**
   * Main result. In every interleaving, leases that run out under slow requests included, the first outcome
   * stored stands for good, starting the thread over included, and every request that is ever answered on
   * the thread is answered with it.
   */
  lemma OneOutcome(events: seq<Event>, rest: seq<Event>, t: string)
    ensures var w, w' := After(events), After(events + rest);
      && (Spent(w, t) ==> Spent(w', t) && w'.rows[t] == w.rows[t])
      && (forall n :: AnsweredOn(w', n, t) ==>
           t in w'.rows && w'.rows[t].status == Done(w'.requests[n].stage.outcome))
  {
    Reachable(events + rest);
    if Spent(After(events), t) { DoneStaysDone(events, rest, t); }
    hide After;
    var w' := After(events + rest);
    forall n | AnsweredOn(w', n, t) ensures t in w'.rows && w'.rows[t].status == Done(w'.requests[n].stage.outcome) {
      assert RequestOk(w', w'.requests[n]);
    }
  }

  /**
   * No thread is refused for good: it is refused while a claim of it is no older than two minutes, and only
   * then; once that has passed, a resume is let in or replays.
   */
  lemma NeverWedged(events: seq<Event>, t: string)
    requires t in After(events).rows
    ensures var w := After(events);
      ClaimOf(w, t).Conflict? <==> w.rows[t].status.Resuming? && w.now <= w.rows[t].status.claimedAt + 120
    ensures !ClaimOf(After(events + [Tick(121)]), t).Conflict?
  {
    Reachable(events);
    Next(events, Tick(121));
    hide After;
  }

  /* ---- how often a thread is minted ---- */

  function Minting(t: string): Request -> bool { (r: Request) => r.threadId == t && r.minted }

  lemma MintsCounted(w: World, e: Event, t: string)
    requires Count(w.mints, t) == CountIf(w.requests, Minting(t))
    ensures Count(Apply(w, e).mints, t) == CountIf(Apply(w, e).requests, Minting(t))
  {
    hide Count, CountIf;
    var w' := Apply(w, e);
    match e {
      case Start(_) =>
      case Tick(_) =>
      case Claim(_) => CountIfMore(w.requests, w'.requests[|w.requests|], Minting(t));
      case Load(n) => if n < |w.requests| { CountIfSet(w.requests, n, w'.requests[n], Minting(t)); }
      case Mint(n) =>
        if n < |w.requests| {
          CountMore(w.mints, w.requests[n].threadId, t);
          CountIfSet(w.requests, n, w'.requests[n], Minting(t));
        }
      case Record(n, _) => if n < |w.requests| { CountIfSet(w.requests, n, w'.requests[n], Minting(t)); }
      case Fail(n) => if n < |w.requests| { CountIfSet(w.requests, n, w'.requests[n], Minting(t)); }
      case Save(n, _) => if n < |w.requests| { CountIfSet(w.requests, n, w'.requests[n], Minting(t)); }
    }
  }

  lemma {:induction false} MintsAreRequests(events: seq<Event>, t: string)
    ensures Count(After(events).mints, t) == CountIf(After(events).requests, Minting(t))
  {
    if events != [] {
      var before, e := events[..|events| - 1], events[|events| - 1];
      assert After(events) == Apply(After(before), e);
      hide *;
      MintsAreRequests(before, t);
      MintsCounted(After(before), e, t);
    }
  }

  ghost predicate MintedFor(w: World, n: int, t: string) {
    On(w, n, t) && w.requests[n].claim.Claimed? && w.requests[n].minted
  }

  const NOBODY := Request("", Conflict, 0, Refused, false)

  /**
   * Main result. In every interleaving a thread is minted more than once exactly when two requests that were
   * each granted it minted: never by a request let in to replay, never for starting the thread over.
   */
  lemma MintedAgainIff(events: seq<Event>, t: string)
    ensures var w := After(events);
      Count(w.mints, t) > 1 <==> exists m, n :: m != n && MintedFor(w, m, t) && MintedFor(w, n, t)
  {
    hide Count, CountIf, After;
    MintsAreRequests(events, t);
    Reachable(events);
    var w := After(events);
    MoreThanOne(w.requests, NOBODY, Minting(t));
    if Count(w.mints, t) > 1 {
      var m, n :| 0 <= m < |w.requests| && 0 <= n < |w.requests| && m != n
        && Minting(t)(w.requests[m]) && Minting(t)(w.requests[n]);
      assert RequestOk(w, w.requests[m]) && RequestOk(w, w.requests[n]);
      assert MintedFor(w, m, t) && MintedFor(w, n, t);
    }
    if m, n :| m != n && MintedFor(w, m, t) && MintedFor(w, n, t) {
      assert Minting(t)(w.requests[m]) && Minting(t)(w.requests[n]);
    }
  }

  /** A granted request that minted, or still may. */
  predicate Spends(r: Request) { r.claim.Claimed? && (r.minted || r.stage.Admitted? || r.stage.Holding?) }

  /** What the lease is meant to give: it runs out only on a request that did not mint and no longer can. */
  ghost predicate Guarded(w: World, e: Event, t: string) {
    e == Claim(t) && Claimable(w, t) ==> forall n :: On(w, n, t) ==> !Spends(w.requests[n])
  }

  ghost predicate LeasesHold(events: seq<Event>, t: string) {
    if events == [] then true
    else
      var before := events[..|events| - 1];
      LeasesHold(before, t) && Guarded(After(before), events[|before|], t)
  }

  /** The last request the thread was granted to. */
  ghost predicate Latest(w: World, n: int, t: string) {
    On(w, n, t) && forall k :: On(w, k, t) && w.requests[k].claim.Claimed? ==> k <= n
  }

  /** Who may still store an outcome is the last one let in. */
  ghost predicate LatestOk(w: World, n: int, t: string) {
    && On(w, n, t)
    && var r := w.requests[n];
       (Spends(r) || (r.claim.Claimed? && r.stage.Recorded? && t in w.rows && r.seen == w.rows[t].version)) ==>
         Latest(w, n, t) && (Spent(w, t) ==> !r.stage.Admitted? && !r.stage.Holding?)
  }

  ghost predicate InTurn(w: World, t: string) {
    && (forall n :: On(w, n, t) ==> LatestOk(w, n, t))
    && (Spent(w, t) ==> Count(w.mints, t) == One(w.rows[t].status.outcome.approved))
  }

  lemma InTurnKeeps(w: World, e: Event, t: string)
    requires Inv(w) && InTurn(w, t) && Guarded(w, e, t)
    requires Count(w.mints, t) == CountIf(w.requests, Minting(t))
    ensures InTurn(Apply(w, e), t)
  {
    LatestKeeps(w, e, t);
    SpentKeeps(w, e, t);
  }

  /** The same requests, whatever they did. */
  ghost predicate SameRequests(w: World, w': World) {
    && |w'.requests| == |w.requests|
    && forall k :: 0 <= k < |w.requests| ==>
         w'.requests[k].threadId == w.requests[k].threadId && w'.requests[k].claim == w.requests[k].claim
  }

  lemma LatestSame(w: World, w': World, n: int, t: string)
    requires SameRequests(w, w') && On(w, n, t)
    ensures Latest(w', n, t) <==> Latest(w, n, t)
  {
    assert forall k :: On(w', k, t) <==> On(w, k, t);
  }

  lemma LatestKeeps(w: World, e: Event, t: string)
    requires Inv(w) && (forall n :: On(w, n, t) ==> LatestOk(w, n, t)) && Guarded(w, e, t)
    ensures forall n :: On(Apply(w, e), n, t) ==> LatestOk(Apply(w, e), n, t)
  {
    var w' := Apply(w, e);
    forall n | On(w', n, t) ensures LatestOk(w', n, t) {
      if e.Claim? {
        LatestWhenClaimed(w, e.threadId, n, t);
      } else {
        LatestOtherwise(w, e, n, t);
      }
    }
  }

  lemma LatestWhenClaimed(w: World, u: string, n: nat, t: string)
    requires Inv(w) && (n < |w.requests| && On(w, n, t) ==> LatestOk(w, n, t)) && Guarded(w, Claim(u), t)
    requires On(Apply(w, Claim(u)), n, t)
    ensures LatestOk(Apply(w, Claim(u)), n, t)
  {
    var w' := Apply(w, Claim(u));
    assert forall k :: On(w', k, t) && k < |w.requests| ==> On(w, k, t);
    if n < |w.requests| { assert On(w, n, t) && RequestOk(w, w.requests[n]); }
  }

  lemma LatestOtherwise(w: World, e: Event, n: nat, t: string)
    requires Inv(w) && (forall k :: On(w, k, t) ==> LatestOk(w, k, t)) && !e.Claim?
    requires On(Apply(w, e), n, t)
    ensures LatestOk(Apply(w, e), n, t)
  {
    var w' := Apply(w, e);
    assert SameRequests(w, w') && On(w, n, t);
    LatestSame(w, w', n, t);
    assert LatestOk(w, n, t) && RequestOk(w, w.requests[n]);
    if e.Save? && e.request < |w.requests| && w.requests[e.request].threadId == t {
      assert On(w, e.request, t) && LatestOk(w, e.request, t) && RequestOk(w, w.requests[e.request]);
      if Latest(w, n, t) && Latest(w, e.request, t)
        && w.requests[n].claim.Claimed? && w.requests[e.request].claim.Claimed? {
        OneLatest(w, n, e.request, t);
      }
    }
    hide Latest, Count;
  }

  lemma OneLatest(w: World, m: int, n: int, t: string)
    requires Latest(w, m, t) && Latest(w, n, t) && w.requests[m].claim.Claimed? && w.requests[n].claim.Claimed?
    ensures m == n
  {
  }

  lemma SpentKeeps(w: World, e: Event, t: string)
    requires Inv(w) && InTurn(w, t)
    requires Count(w.mints, t) == CountIf(w.requests, Minting(t))
    ensures var w' := Apply(w, e); Spent(w', t) ==> Count(w'.mints, t) == One(w'.rows[t].status.outcome.approved)
  {
    hide Count, CountIf;
    var w' := Apply(w, e);
    if Spent(w, t) {
      DoneStays(w, e, t);
      if e.Mint? && e.request < |w.requests| {
        CountMore(w.mints, w.requests[e.request].threadId, t);
        assert RequestOk(w, w.requests[e.request]);
        if On(w, e.request, t) { assert LatestOk(w, e.request, t); }
      }
    } else if Spent(w', t) {
      FinishedByTheLatest(w, e.request, t);
    }
  }

  /** Whoever stores the outcome is the only one that may have minted. */
  lemma FinishedByTheLatest(w: World, n: nat, t: string)
    requires Inv(w) && InTurn(w, t) && On(w, n, t) && w.requests[n].stage.Recorded?
    requires t in w.rows && w.rows[t].version == w.requests[n].seen
    requires Count(w.mints, t) == CountIf(w.requests, Minting(t))
    ensures Count(w.mints, t) == One(w.requests[n].minted)
  {
    hide Count, CountIf;
    assert RequestOk(w, w.requests[n]) && LatestOk(w, n, t);
    CountIfSet(w.requests, n, NOBODY, Minting(t));
    var others := w.requests[n := NOBODY];
    forall m | On(w, m, t) && w.requests[m].minted ensures m == n {
      assert LatestOk(w, m, t) && RequestOk(w, w.requests[m]);
    }
    if CountIf(others, Minting(t)) > 0 {
      var m := OneOf(others, Minting(t));
      assert false;
    }
  }

  lemma {:induction false} InTurnReach(events: seq<Event>, t: string)
    requires LeasesHold(events, t)
    ensures InTurn(After(events), t)
  {
    if events == [] {
      assert InTurn(EMPTY, t);
    } else {
      hide Apply, Inv, InTurn, Guarded, Count, CountIf;
      var before := events[..|events| - 1];
      InTurnReach(before, t);
      Reachable(before);
      MintsAreRequests(before, t);
      InTurnKeeps(After(before), events[|before|], t);
    }
  }

  /**
   * Main result. While leases run out only on requests that did not mint and no longer can, a thread is
   * minted at most once, and its stored outcome is an approval exactly when it was.
   */
  lemma HeldLeasesMintOnce(events: seq<Event>, t: string)
    requires LeasesHold(events, t)
    ensures var w := After(events);
      && Count(w.mints, t) <= 1
      && (Spent(w, t) ==> (w.rows[t].status.outcome.approved <==> Count(w.mints, t) == 1))
  {
    InTurnReach(events, t);
    MintedAgainIff(events, t);
    hide Count, After;
    var w := After(events);
    forall m, n | MintedFor(w, m, t) && MintedFor(w, n, t) ensures m == n {
      assert LatestOk(w, m, t) && LatestOk(w, n, t);
    }
  }

  /** And no less would do: one lease that runs out on a request that minted or may, and two mint. */
  lemma TheLeaseIsNeeded(events: seq<Event>, m: nat, t: string)
    requires On(After(events), m, t) && Spends(After(events).requests[m]) && Claimable(After(events), t)
    ensures var k := |After(events).requests|;
      Count(After(events + [Claim(t)] + [Load(k)] + [Mint(k)] + [Load(m)] + [Mint(m)]).mints, t) > 1
  {
    var k := |After(events).requests|;
    Reachable(events);
    Next(events, Claim(t));
    Next(events + [Claim(t)], Load(k));
    Next(events + [Claim(t)] + [Load(k)], Mint(k));
    Next(events + [Claim(t)] + [Load(k)] + [Mint(k)], Load(m));
    Next(events + [Claim(t)] + [Load(k)] + [Mint(k)] + [Load(m)], Mint(m));
    var run := events + [Claim(t)] + [Load(k)] + [Mint(k)] + [Load(m)] + [Mint(m)];
    MintedAgainIff(run, t);
    BothMint(After(events), m, t);
    hide After, Count, Apply;
  }

  lemma BothMint(w: World, m: nat, t: string)
    requires Inv(w) && On(w, m, t) && Spends(w.requests[m]) && Claimable(w, t)
    ensures var k := |w.requests|;
      var w' := Apply(Apply(Apply(Apply(Apply(w, Claim(t)), Load(k)), Mint(k)), Load(m)), Mint(m));
      m != k && MintedFor(w', m, t) && MintedFor(w', k, t)
  {
    assert RequestOk(w, w.requests[m]);
  }

  /* ---- a lease that ran out ---- */

  lemma Steps(events: seq<Event>, n: nat)
    requires n < |events|
    ensures After(events[..n + 1]) == Apply(After(events[..n]), events[n])
  {
    hide Apply;
    assert events[..n + 1][..n] == events[..n];
  }

  const LET_IN := [Start("t"), Claim("t"), Load(0), Mint(0)]

  const SLOW := LET_IN + [Tick(CLAIM_LEASE + 1), Claim("t"), Load(1)]

  const BOTH_HOLD := World(
    121, map["t" := Row(3, Resuming(121))],
    [Request("t", Claimed, 2, Holding, true), Request("t", Claimed, 3, Holding, false)], ["t"])

  lemma AfterLetIn()
    ensures After(LET_IN)
      == World(0, map["t" := Row(2, Resuming(0))], [Request("t", Claimed, 2, Holding, true)], ["t"])
  {
    Steps(LET_IN, 0);
    Steps(LET_IN, 1);
    Steps(LET_IN, 2);
    Steps(LET_IN, 3);
    hide After;
    assert LET_IN[..0] == [] && LET_IN[..4] == LET_IN;
    assert Apply(Apply(EMPTY, Start("t")), Claim("t"))
      == World(0, map["t" := Row(2, Resuming(0))], [Request("t", Claimed, 2, Admitted, false)], []);
  }

  /** A request that approved and minted is slow to finish; its lease runs out, and the next one is let in. */
  lemma SlowHolder()
    ensures After(SLOW) == BOTH_HOLD
  {
    AfterLetIn();
    hide After;
    assert SLOW[..4] == LET_IN && SLOW[..7] == SLOW;
    Steps(SLOW, 4);
    Steps(SLOW, 5);
    Steps(SLOW, 6);
  }

  lemma CountTwo()
    ensures Count(["t"], "t") == 1 && Count(["t", "t"], "t") == 2
  {
    CountMore([], "t", "t");
    CountMore(["t"], "t", "t");
    assert [] + ["t"] == ["t"] && ["t"] + ["t"] == ["t", "t"];
  }

  /** It happens: both approve, and the thread is minted twice. */
  lemma SlowHolderMintsTwice()
    ensures Count(After(SLOW + [Mint(1)]).mints, "t") == 2
  {
    SlowHolder();
    Next(SLOW, Mint(1));
    CountTwo();
    hide After, Count;
  }

  /** And this: the second one declines, so the thread is stored as declined, though it was minted. */
  lemma DeclinedOverAMint()
    ensures var w := After(SLOW + [Record(1, "")] + [Save(1, true)]);
      && Spent(w, "t") && !w.rows["t"].status.outcome.approved && Count(w.mints, "t") == 1
  {
    SlowHolder();
    Next(SLOW, Record(1, ""));
    Next(SLOW + [Record(1, "")], Save(1, true));
    CountTwo();
    hide After, Count;
  }
}
