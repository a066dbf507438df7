/**
 * Resuming over HTTP, on the in-memory store. Every request builds its own runtime, so it always takes the
 * durable path; what keeps concurrent requests apart is the store's claim. Each await of a request is a
 * place where others may move, and may throw: the capability check and the load, the backend calls of the
 * record step, the save.
 */
module ResumeGate {
  import opened Claiming
  import opened Counting

  /** What a person decided, with whatever else the record step answers. */
  datatype Outcome = Outcome(approved: bool, note: string)

  /** The durable state of a thread; `parked` numbers the start that parked it. */
  datatype Status = Awaiting(parked: nat) | Done(outcome: Outcome)

  /** A request after its claim: it may load, hold what it loaded, have recorded it, or be over, replayed or not. */
  datatype Stage = Admitted | Holding(parked: nat) | Recorded(outcome: Outcome)
    | Replied(outcome: Outcome, replayed: bool) | Refused | Failed

  /** `minted` says whether the guided session was minted for this request, answered or not. */
  datatype Request = Request(threadId: string, claim: ClaimOutcome, stage: Stage, minted: bool)

  datatype World = World(
    store: map<string, Status>, claimed: set<string>, requests: seq<Request>, parks: seq<string>, mints: seq<string>)

  datatype Event =
    | Park(threadId: string)
    | Claim(threadId: string)
    | Load(request: nat)
    | Mint(request: nat)
    | Record(request: nat, note: string)
    | Fail(request: nat)
    | Save(request: nat)

  const EMPTY := World(map[], {}, [], [], [])

  /** The in-memory store's check-and-set, one atomic step. */
  function ClaimOf(w: World, t: string): ClaimOutcome {
    if t !in w.store then Conflict
    else if w.store[t].Done? then AlreadyDone
    else if t in w.claimed then Conflict
    else Claimed
  }

  predicate Busy(s: Stage) { s.Admitted? || s.Holding? || s.Recorded? }

  function With(w: World, n: nat, r: Request): World
    requires n < |w.requests|
  {
    w.(requests := w.requests[n := r])
  }

  /**
   * An approving request mints and then records; a declining one records without a call. Any request may
   * throw while it works, before its mint or after it.
   */
  function Apply(w: World, e: Event): World {
    match e
    case Park(t) => w.(store := w.store[t := Awaiting(|w.parks|)], parks := w.parks + [t])
    case Claim(t) =>
      var c := ClaimOf(w, t);
      w.(claimed := if c.Claimed? then w.claimed + {t} else w.claimed,
         requests := w.requests + [Request(t, c, if c.Conflict? then Refused else Admitted, false)])
    case Load(n) =>
      if n < |w.requests| && w.requests[n].stage.Admitted? && w.requests[n].threadId in w.store then
        var r := w.requests[n];
        match w.store[r.threadId]
        case Done(outcome) => With(w, n, r.(stage := Replied(outcome, true)))
        case Awaiting(k) => With(w, n, r.(stage := Holding(k)))
      else w
    case Mint(n) =>
      if n < |w.requests| && w.requests[n].stage.Holding? && !w.requests[n].minted then
        With(w, n, w.requests[n].(minted := true)).(mints := w.mints + [w.requests[n].threadId])
      else w
    case Record(n, note) =>
      if n < |w.requests| && w.requests[n].stage.Holding? then
        With(w, n, w.requests[n].(stage := Recorded(Outcome(w.requests[n].minted, note))))
      else w
    case Fail(n) =>
      if n < |w.requests| && Busy(w.requests[n].stage) then With(w, n, w.requests[n].(stage := Failed)) else w
    case Save(n) =>
      if n < |w.requests| && w.requests[n].stage.Recorded? then
        var r := w.requests[n];
        With(w, n, r.(stage := Replied(r.stage.outcome, false))).(store := w.store[r.threadId := Done(r.stage.outcome)])
      else w
  }

  function After(events: seq<Event>): World {
    if events == [] then EMPTY else Apply(After(events[..|events| - 1]), events[|events| - 1])
  }

  lemma Next(events: seq<Event>, e: Event)
    ensures After(events + [e]) == Apply(After(events), e)
  {
    hide Apply;
    assert (events + [e])[..|events|] == events;
  }

  lemma Three(events: seq<Event>, a: Event, b: Event, c: Event)
    ensures After(events + [a, b, c]) == Apply(Apply(Apply(After(events), a), b), c)
  {
    Next(events, a);
    Next(events + [a], b);
    Next(events + [a, b], c);
    assert (events + [a]) + [b] == events + [a, b];
    assert (events + [a, b]) + [c] == events + [a, b, c];
  }

  /* ---- a claim is granted once, and kept ---- */

  ghost predicate Granted(w: World, n: int, t: string) {
    0 <= n < |w.requests| && w.requests[n].threadId == t && w.requests[n].claim.Claimed?
  }

  /** Refused from the start, or let in; nothing is minted before the thread was loaded. */
  predicate Sound(r: Request) {
    && (r.claim.Conflict? <==> r.stage.Refused?)
    && (r.stage.Refused? || r.stage.Admitted? ==> !r.minted)
    && (r.stage.Recorded? ==> r.stage.outcome.approved == r.minted)
  }

  ghost predicate ClaimsOk(w: World) {
    && (forall t :: t in w.claimed ==> t in w.store && exists n :: Granted(w, n, t))
    && (forall n, t :: Granted(w, n, t) ==> t in w.claimed)
    && (forall m, n, t :: Granted(w, m, t) && Granted(w, n, t) ==> m == n)
    && (forall n :: 0 <= n < |w.requests| ==> Sound(w.requests[n]))
    && (forall n :: 0 <= n < |w.requests| && Busy(w.requests[n].stage) ==> w.requests[n].threadId in w.store)
  }

  lemma ClaimsKeep(w: World, e: Event)
    requires ClaimsOk(w)
    ensures ClaimsOk(Apply(w, e))
  {
    match e {
      case Park(_) => assert forall n, t :: Granted(Apply(w, e), n, t) <==> Granted(w, n, t);
      case Claim(t) => ClaimKeepsClaims(w, t);
      case Load(n) => if n < |w.requests| { WorkKeepsClaims(w, Apply(w, e), n); }
      case Mint(n) => if n < |w.requests| { WorkKeepsClaims(w, Apply(w, e), n); }
      case Record(n, _) => if n < |w.requests| { WorkKeepsClaims(w, Apply(w, e), n); }
      case Fail(n) => if n < |w.requests| { WorkKeepsClaims(w, Apply(w, e), n); }
      case Save(n) => if n < |w.requests| { WorkKeepsClaims(w, Apply(w, e), n); }
    }
  }

  lemma ClaimKeepsClaims(w: World, t: string)
    requires ClaimsOk(w)
    ensures ClaimsOk(Apply(w, Claim(t)))
  {
    var w' := Apply(w, Claim(t));
    assert forall n, u :: Granted(w, n, u) ==> Granted(w', n, u);
    assert forall n, u :: Granted(w', n, u) && n < |w.requests| ==> Granted(w, n, u);
    if ClaimOf(w, t).Claimed? { assert Granted(w', |w.requests|, t); }
  }

  /** A request that moves keeps its thread, its claim and its soundness; no thread leaves the store. */
  lemma WorkKeepsClaims(w: World, w': World, n: nat)
    requires ClaimsOk(w) && n < |w.requests| && w'.claimed == w.claimed && w.store.Keys <= w'.store.Keys
    requires |w'.requests| == |w.requests| && w'.requests == w.requests[n := w'.requests[n]] && Sound(w'.requests[n])
    requires w'.requests[n].threadId == w.requests[n].threadId && w'.requests[n].claim == w.requests[n].claim
    requires Busy(w'.requests[n].stage) ==> w.requests[n].threadId in w.store
    ensures ClaimsOk(w')
  {
    assert forall k, t :: Granted(w', k, t) <==> Granted(w, k, t);
  }

  lemma {:induction false} ClaimsReach(events: seq<Event>)
    ensures ClaimsOk(After(events))
  {
    if events != [] {
      hide Apply;
      ClaimsReach(events[..|events| - 1]);
      ClaimsKeep(After(events[..|events| - 1]), events[|events| - 1]);
    }
  }

  /**
   * In every interleaving a thread is claimed by at most one request, ever; and a claim on a waiting
   * thread is granted exactly when none was granted before.
   */
  lemma OneGrantPerThread(events: seq<Event>, t: string)
    ensures var w := After(events);
      && (forall m, n :: Granted(w, m, t) && Granted(w, n, t) ==> m == n)
      && (t in w.claimed <==> exists n :: Granted(w, n, t))
      && (t in w.store && w.store[t].Awaiting? ==> (ClaimOf(w, t).Claimed? <==> forall n :: !Granted(w, n, t)))
  {
    ClaimsReach(events);
  }

  /* ---- a thread that is parked once ---- */

  function Spent(w: World, t: string): bool {
    t in w.store && w.store[t].Done?
  }

  /** Requests let in because the thread was finished find it finished; only the claim's holder works on it. */
  ghost predicate OnceOk(w: World, t: string) {
    && Count(w.parks, t) <= 1
    && (t in w.store <==> Count(w.parks, t) == 1)
    && (forall n :: 0 <= n < |w.requests| && w.requests[n].threadId == t ==> RequestOk(w, t, w.requests[n]))
    && (t !in w.claimed ==> Count(w.mints, t) == 0 && !Spent(w, t))
    && (Spent(w, t) ==> Count(w.mints, t) == One(w.store[t].outcome.approved))
    && Count(w.mints, t) <= 1
  }

  ghost predicate RequestOk(w: World, t: string, r: Request) {
    && (Busy(r.stage) || r.stage.Replied? || r.stage.Failed? ==> t in w.store)
    && (r.claim.AlreadyDone? ==> Spent(w, t) && !r.minted && !r.stage.Holding? && !r.stage.Recorded?)
    && (r.claim.Claimed? && !r.stage.Replied? ==> !Spent(w, t) && Count(w.mints, t) == One(r.minted))
    && (r.stage.Replied? ==> Spent(w, t) && w.store[t].outcome == r.stage.outcome)
    && Sound(r)
  }

  ghost predicate NoRepark(w: World, e: Event, t: string) {
    e == Park(t) ==> Count(w.parks, t) == 0
  }

  /** The step of one request leaves its thread's invariant to be shown for that request alone. */
  predicate Works(w: World, e: Event, n: nat) {
    n < |w.requests| && Apply(w, e) != w
    && (e == Load(n) || e == Mint(n) || e == Fail(n) || (e.Record? && e.request == n) || e == Save(n))
  }

  lemma OnceKeeps(w: World, e: Event, t: string)
    requires ClaimsOk(w) && OnceOk(w, t) && NoRepark(w, e, t)
    ensures OnceOk(Apply(w, e), t)
  {
    match e {
      case Park(u) => ParkKeepsOnce(w, u, t);
      case Claim(u) => ClaimKeepsOnce(w, u, t);
      case Load(n) => if Works(w, e, n) { WorkKeepsOnce(w, e, n, t); }
      case Mint(n) => if Works(w, e, n) { WorkKeepsOnce(w, e, n, t); }
      case Record(n, _) => if Works(w, e, n) { WorkKeepsOnce(w, e, n, t); }
      case Fail(n) => if Works(w, e, n) { WorkKeepsOnce(w, e, n, t); }
      case Save(n) => if Works(w, e, n) { WorkKeepsOnce(w, e, n, t); }
    }
  }

  lemma ParkKeepsOnce(w: World, u: string, t: string)
    requires ClaimsOk(w) && OnceOk(w, t) && NoRepark(w, Park(u), t)
    ensures OnceOk(Apply(w, Park(u)), t)
  {
    CountMore(w.parks, u, t);
    hide Count;
    var w' := Apply(w, Park(u));
    forall n | 0 <= n < |w.requests| && w.requests[n].threadId == t ensures RequestOk(w', t, w.requests[n]) {
      assert RequestOk(w, t, w.requests[n]);
    }
  }

  lemma ClaimKeepsOnce(w: World, u: string, t: string)
    requires ClaimsOk(w) && OnceOk(w, t)
    ensures OnceOk(Apply(w, Claim(u)), t)
  {
    hide Count;
    var w' := Apply(w, Claim(u));
    forall n | 0 <= n < |w'.requests| && w'.requests[n].threadId == t ensures RequestOk(w', t, w'.requests[n]) {
      if n < |w.requests| { assert RequestOk(w, t, w.requests[n]); }
    }
  }

  lemma WorkKeepsOnce(w: World, e: Event, n: nat, t: string)
    requires ClaimsOk(w) && OnceOk(w, t) && Works(w, e, n)
    ensures OnceOk(Apply(w, e), t)
  {
    hide OnceOk, ClaimsOk, Count;
    var u := w.requests[n].threadId;
    CountMore(w.mints, u, t);
    if u == t {
      WorksHere(w, e, n, t);
    } else {
      UntouchedKeepsOnce(w, Apply(w, e), t);
    }
  }

  /** What a thread's invariant depends on, the same in both worlds. */
  ghost predicate Untouched(w: World, w': World, t: string) {
    && (t in w'.store <==> t in w.store) && (t in w.store ==> w'.store[t] == w.store[t])
    && w'.claimed == w.claimed && w'.parks == w.parks && Count(w'.mints, t) == Count(w.mints, t)
    && |w'.requests| == |w.requests|
    && (forall k :: 0 <= k < |w.requests| && w'.requests[k].threadId == t ==> w'.requests[k] == w.requests[k])
  }

  lemma UntouchedKeepsOnce(w: World, w': World, t: string)
    requires OnceOk(w, t) && Untouched(w, w', t)
    ensures OnceOk(w', t)
  {
    hide Count;
    forall k | 0 <= k < |w'.requests| && w'.requests[k].threadId == t ensures RequestOk(w', t, w'.requests[k]) {
      assert RequestOk(w, t, w.requests[k]);
    }
  }

  lemma WorksHere(w: World, e: Event, n: nat, t: string)
    requires ClaimsOk(w) && OnceOk(w, t) && Works(w, e, n) && w.requests[n].threadId == t
    requires Count(w.mints + [t], t) == Count(w.mints, t) + 1
    ensures OnceOk(Apply(w, e), t)
  {
    hide Count;
    var w' := Apply(w, e);
    assert RequestOk(w, t, w.requests[n]);
    assert RequestOk(w', t, w'.requests[n]);
    assert w.requests[n].claim.Claimed? ==> Granted(w, n, t);
    forall k | 0 <= k < |w'.requests| && w'.requests[k].threadId == t ensures RequestOk(w', t, w'.requests[k]) {
      assert RequestOk(w, t, w.requests[k]);
      if k != n && w.requests[n].claim.Claimed? { assert !Granted(w, k, t); }
    }
  }

  /** No start of the thread once it was started. */
  ghost predicate ParkedOnce(events: seq<Event>, t: string) {
    if events == [] then true
    else
      var before := events[..|events| - 1];
      ParkedOnce(before, t) && NoRepark(After(before), events[|before|], t)
  }

  lemma {:induction false} OnceReach(events: seq<Event>, t: string)
    requires ParkedOnce(events, t)
    ensures OnceOk(After(events), t)
  {
    hide Apply, ClaimsOk, NoRepark;
    if events == [] {
      NothingYet(t);
    } else {
      var before := events[..|events| - 1];
      OnceReach(before, t);
      ClaimsReach(before);
      OnceKeeps(After(before), events[|before|], t);
    }
  }

  lemma NothingYet(t: string)
    ensures OnceOk(EMPTY, t)
  {
  }

  ghost predicate AnsweredOn(w: World, n: int, t: string) {
    0 <= n < |w.requests| && w.requests[n].threadId == t && w.requests[n].stage.Replied?
  }

  /**
   * Main result. In every interleaving of any number of concurrent requests, whatever each decides and
   * wherever each throws, a thread that was parked once is minted at most once; every request that is
   * answered gets the same outcome; and that outcome is an approval exactly when the thread was minted.
   */
  lemma MintOnceUnderConcurrency(events: seq<Event>, t: string)
    requires ParkedOnce(events, t)
    ensures var w := After(events);
      && Count(w.mints, t) <= 1
      && (forall m, n :: AnsweredOn(w, m, t) && AnsweredOn(w, n, t) ==>
           w.requests[m].stage.outcome == w.requests[n].stage.outcome)
      && (forall n :: AnsweredOn(w, n, t) ==> (w.requests[n].stage.outcome.approved <==> Count(w.mints, t) == 1))
  {
    OnceReach(events, t);
  }

  /* ---- a claim is never given back ---- */

  ghost predicate NobodyWorks(w: World, t: string) {
    forall n :: 0 <= n < |w.requests| && w.requests[n].threadId == t ==> !Busy(w.requests[n].stage)
  }

  /** Waiting, claimed, and nobody left to finish it. */
  ghost predicate Stuck(w: World, t: string) {
    && t in w.store && w.store[t].Awaiting? && t in w.claimed
    && NobodyWorks(w, t)
  }

  lemma StuckStays(w: World, e: Event, t: string)
    requires Stuck(w, t)
    ensures Stuck(Apply(w, e), t)
    ensures e == Claim(t) ==> ClaimOf(w, t).Conflict?
  {
  }

  lemma {:induction false} StuckAfter(events: seq<Event>, rest: seq<Event>, t: string)
    requires Stuck(After(events), t)
    ensures Stuck(After(events + rest), t) && ClaimOf(After(events + rest), t).Conflict?
  {
    if rest == [] {
      assert events + rest == events;
    } else {
      hide Apply, Stuck, ClaimOf;
      var last := |rest| - 1;
      StuckAfter(events, rest[..last], t);
      Next(events + rest[..last], rest[last]);
      assert events + rest == (events + rest[..last]) + [rest[last]];
      StuckStays(After(events + rest[..last]), rest[last], t);
      StuckRefuses(After(events + rest), t);
    }
  }

  lemma StuckRefuses(w: World, t: string)
    requires Stuck(w, t)
    ensures ClaimOf(w, t).Conflict?
  {
  }

  /** No resume of the thread will ever be let in again, whatever happens, starting it over included. */
  ghost predicate RefusedForGood(events: seq<Event>, t: string) {
    forall rest: seq<Event> :: ClaimOf(After(events + rest), t).Conflict?
  }

  /**
   * Main result. A thread refuses every resume for good exactly when it is stuck. Short of that there is a
   * way on: it is not claimed, or a request that works on it can still finish.
   */
  lemma RefusedForGoodIffStuck(events: seq<Event>, t: string)
    ensures RefusedForGood(events, t) <==> Stuck(After(events), t)
  {
    if Stuck(After(events), t) {
      forall rest: seq<Event> ensures ClaimOf(After(events + rest), t).Conflict? { StuckAfter(events, rest, t); }
    } else {
      var rest := AWayOn(events, t);
      assert !ClaimOf(After(events + rest), t).Conflict?;
    }
  }

  lemma AWayOn(events: seq<Event>, t: string) returns (rest: seq<Event>)
    requires !Stuck(After(events), t)
    ensures !ClaimOf(After(events + rest), t).Conflict?
  {
    ClaimsReach(events);
    var w := After(events);
    if t !in w.store {
      rest := [Park(t)];
      Next(events, Park(t));
    } else if w.store[t].Done? || t !in w.claimed {
      rest := [];
      assert events + rest == events;
    } else {
      var n :| 0 <= n < |w.requests| && w.requests[n].threadId == t && Busy(w.requests[n].stage);
      rest := [Load(n), Record(n, ""), Save(n)];
      Three(events, Load(n), Record(n, ""), Save(n));
      hide After;
      FinishesIt(w, n);
    }
  }

  /** A request at work on a waiting thread finishes it when it goes on undisturbed. */
  lemma FinishesIt(w: World, n: nat)
    requires n < |w.requests| && Busy(w.requests[n].stage) && w.requests[n].threadId in w.store
    requires w.store[w.requests[n].threadId].Awaiting?
    ensures Spent(Apply(Apply(Apply(w, Load(n)), Record(n, "")), Save(n)), w.requests[n].threadId)
  {
  }

  ghost predicate FailedHolder(w: World, n: int, t: string) { Granted(w, n, t) && w.requests[n].stage.Failed? }

  /**
   * Main result. A thread parked once is stuck exactly when the one request let in to it threw at some await
   * before its outcome was stored: the second capability check and the load included.
   */
  lemma StuckIffFailed(events: seq<Event>, t: string)
    requires ParkedOnce(events, t)
    ensures var w := After(events); Stuck(w, t) <==> exists n :: FailedHolder(w, n, t)
  {
    var w := After(events);
    OnceReach(events, t);
    ClaimsReach(events);
    hide Count;
    if Stuck(w, t) {
      var n :| Granted(w, n, t);
      assert RequestOk(w, t, w.requests[n]);
      assert FailedHolder(w, n, t);
    }
    if n :| FailedHolder(w, n, t) { FailedIsStuck(w, n, t); }
  }

  lemma FailedIsStuck(w: World, holder: int, t: string)
    requires ClaimsOk(w) && OnceOk(w, t) && FailedHolder(w, holder, t)
    ensures Stuck(w, t)
  {
    hide Count;
    assert RequestOk(w, t, w.requests[holder]);
    forall n | 0 <= n < |w.requests| && w.requests[n].threadId == t ensures !Busy(w.requests[n].stage) {
      assert RequestOk(w, t, w.requests[n]);
      if n != holder { assert !Granted(w, n, t); }
    }
  }

  /**
   * A granted request that throws wedges its thread for good: the store keeps the claim, so whatever
   * follows, starting the thread over included, every later resume is refused and the thread keeps waiting.
   */
  lemma AFailureWedges(events: seq<Event>, holder: nat, rest: seq<Event>, t: string)
    requires ParkedOnce(events, t)
    requires var w := After(events); Granted(w, holder, t) && w.requests[holder].stage.Failed?
    ensures var w := After(events + rest); Stuck(w, t) && ClaimOf(w, t).Conflict?
  {
    OnceReach(events, t);
    ClaimsReach(events);
    hide ClaimsOk, OnceOk, Apply;
    FailedIsStuck(After(events), holder, t);
    StuckAfter(events, rest, t);
  }

  /* ---- how often a thread is minted, over every run ---- */

  /** The requests on a thread that were minted for. */
  function Minting(t: string): Request -> bool { (r: Request) => r.threadId == t && r.minted }

  ghost predicate MinterAt(w: World, n: int, t: string) { 0 <= n < |w.requests| && Minting(t)(w.requests[n]) }

  ghost predicate ReplayAt(w: World, n: int, t: string) {
    0 <= n < |w.requests| && w.requests[n].threadId == t && w.requests[n].claim.AlreadyDone?
  }

  lemma MintsCounted(w: World, e: Event, t: string)
    requires Count(w.mints, t) == CountIf(w.requests, Minting(t))
    ensures Count(Apply(w, e).mints, t) == CountIf(Apply(w, e).requests, Minting(t))
  {
    hide Count, CountIf;
    var w' := Apply(w, e);
    match e {
      case Park(_) =>
      case Claim(u) => CountIfMore(w.requests, w'.requests[|w.requests|], Minting(t));
      case Load(n) => if n < |w.requests| { CountIfSet(w.requests, n, w'.requests[n], Minting(t)); }
      case Mint(n) =>
        if n < |w.requests| {
          CountMore(w.mints, w.requests[n].threadId, t);
          CountIfSet(w.requests, n, w'.requests[n], Minting(t));
        }
      case Record(n, _) => if n < |w.requests| { CountIfSet(w.requests, n, w'.requests[n], Minting(t)); }
      case Fail(n) => if n < |w.requests| { CountIfSet(w.requests, n, w'.requests[n], Minting(t)); }
      case Save(n) => if n < |w.requests| { CountIfSet(w.requests, n, w'.requests[n], Minting(t)); }
    }
  }

  /** In every interleaving the mints of a thread are the requests that were minted for, each once. */
  lemma {:induction false} MintsAreRequests(events: seq<Event>, t: string)
    ensures Count(After(events).mints, t) == CountIf(After(events).requests, Minting(t))
  {
    if events != [] {
      hide Apply, Count, CountIf;
      var before := events[..|events| - 1];
      MintsAreRequests(before, t);
      MintsCounted(After(before), events[|before|], t);
    }
  }

  const NOBODY := Request("", Conflict, Refused, false)

  /** A request let in because the thread was finished minted all the same, and another minted too. */
  ghost predicate ReplayMintedToo(w: World, m: int, n: int, t: string) {
    m != n && MinterAt(w, m, t) && ReplayAt(w, n, t) && MinterAt(w, n, t)
  }

  /**
   * Main result. In every interleaving, with a thread started over as often as a client likes, whatever is
   * decided and whoever throws, it is minted more than once exactly when a request that was let in to replay
   * minted, and another one did too.
   */
  lemma MintedAgainIff(events: seq<Event>, t: string)
    ensures var w := After(events); Count(w.mints, t) > 1 <==> exists m, n :: ReplayMintedToo(w, m, n, t)
  {
    hide Count, CountIf, After;
    MintsAreRequests(events, t);
    ClaimsReach(events);
    var w := After(events);
    MoreThanOne(w.requests, NOBODY, Minting(t));
    if Count(w.mints, t) > 1 {
      var m, n :| 0 <= m < |w.requests| && 0 <= n < |w.requests| && m != n
        && Minting(t)(w.requests[m]) && Minting(t)(w.requests[n]);
      assert MinterAt(w, m, t) && MinterAt(w, n, t) && Sound(w.requests[m]) && Sound(w.requests[n]);
      assert Granted(w, m, t) || ReplayAt(w, m, t);
      assert Granted(w, n, t) || ReplayAt(w, n, t);
      assert ReplayMintedToo(w, m, n, t) || ReplayMintedToo(w, n, m, t);
    }
    if m, n :| ReplayMintedToo(w, m, n, t) { assert MinterAt(w, m, t) && MinterAt(w, n, t); }
  }

  /** A request let in to replay that has not looked yet. */
  ghost predicate ReplayPending(w: World, n: int, t: string) { ReplayAt(w, n, t) && w.requests[n].stage.Admitted? }

  /** What whoever starts threads could check: no start while a request let in to replay has not looked. */
  ghost predicate Guarded(w: World, e: Event, t: string) {
    e == Park(t) ==> forall n :: !ReplayPending(w, n, t)
  }

  ghost predicate StartsGuarded(events: seq<Event>, t: string) {
    if events == [] then true
    else
      var before := events[..|events| - 1];
      StartsGuarded(before, t) && Guarded(After(before), events[|before|], t)
  }

  /** It has still to look at a finished thread, or looked and replayed it, or threw. */
  predicate OnlyReplays(w: World, r: Request, t: string) {
    !r.minted
    && ((r.stage.Admitted? && Spent(w, t)) || (r.stage.Replied? && r.stage.replayed) || r.stage.Failed?)
  }

  ghost predicate ReplaysOnly(w: World, t: string) {
    forall n :: ReplayAt(w, n, t) ==> OnlyReplays(w, w.requests[n], t)
  }

  lemma ReplaysKeep(w: World, e: Event, t: string)
    requires ReplaysOnly(w, t) && Guarded(w, e, t)
    ensures ReplaysOnly(Apply(w, e), t)
  {
    var w' := Apply(w, e);
    forall n | ReplayAt(w', n, t) ensures OnlyReplays(w', w'.requests[n], t) {
      if n < |w.requests| {
        assert ReplayAt(w, n, t);
        assert !ReplayPending(w, n, t) || e != Park(t);
      }
    }
  }

  lemma {:induction false} ReplaysReach(events: seq<Event>, t: string)
    requires StartsGuarded(events, t)
    ensures ReplaysOnly(After(events), t)
  {
    if events != [] {
      hide Apply, Guarded, ReplaysOnly;
      var before := events[..|events| - 1];
      ReplaysReach(before, t);
      ReplaysKeep(After(before), events[|before|], t);
    }
  }

  /** Main result. Under that guard a thread is minted at most once, however often it is started over. */
  lemma GuardedMintsOnce(events: seq<Event>, t: string)
    requires StartsGuarded(events, t)
    ensures Count(After(events).mints, t) <= 1
  {
    hide Count, After;
    ReplaysReach(events, t);
    MintedAgainIff(events, t);
  }

  /** And no less would do once a thread was minted: one start under such a request, it approves, and mints again. */
  lemma TheGuardIsNeeded(events: seq<Event>, n: nat, t: string)
    requires ReplayPending(After(events), n, t) && Count(After(events).mints, t) > 0
    ensures Count(After(events + [Park(t), Load(n), Mint(n)]).mints, t) > 1
  {
    ClaimsReach(events);
    Three(events, Park(t), Load(n), Mint(n));
    CountMore(After(events).mints, t, t);
    hide Count, After;
  }

  /** Any finished thread: let in to replay, parked under the request, approved, and there is one mint more. */
  lemma ParkedUnderAReplay(w: World, t: string)
    requires Spent(w, t)
    ensures var n := |w.requests|;
      var w' := Apply(Apply(Apply(Apply(w, Claim(t)), Park(t)), Load(n)), Mint(n));
      Count(w'.mints, t) == Count(w.mints, t) + 1
  {
    CountMore(w.mints, t, t);
  }

  /* ---- one thread, started over ---- */

  function ByHolder(o: Outcome): Request {
    Request("t", Claimed, Replied(o, false), o.approved)
  }

  const APPROVED := Outcome(true, "")

  const REPLAY := Request("t", AlreadyDone, Admitted, false)

  const FINISHED := [Park("t"), Claim("t"), Load(0)] + [Mint(0), Record(0, ""), Save(0)]

  const STARTED_OVER := FINISHED + [Claim("t"), Claim("t"), Park("t")]

  /** Approved and finished; then two requests are let in to replay, and the thread is started over under them. */
  lemma StartedOver()
    ensures After(STARTED_OVER)
      == World(map["t" := Awaiting(1)], {"t"}, [ByHolder(APPROVED), REPLAY, REPLAY], ["t", "t"], ["t"])
  {
    var one := [Park("t"), Claim("t"), Load(0)];
    assert [] + one == one;
    Three([], Park("t"), Claim("t"), Load(0));
    Three(one, Mint(0), Record(0, ""), Save(0));
    Three(FINISHED, Claim("t"), Claim("t"), Park("t"));
    hide After;
    HolderFinishes();
    ReplaysLetIn();
  }

  lemma HolderFinishes()
    ensures Apply(Apply(Apply(
        Apply(Apply(Apply(EMPTY, Park("t")), Claim("t")), Load(0)), Mint(0)), Record(0, "")), Save(0))
      == World(map["t" := Done(APPROVED)], {"t"}, [ByHolder(APPROVED)], ["t"], ["t"])
  {
    assert Apply(Apply(Apply(EMPTY, Park("t")), Claim("t")), Load(0))
      == World(map["t" := Awaiting(0)], {"t"}, [Request("t", Claimed, Holding(0), false)], ["t"], []);
  }

  lemma ReplaysLetIn()
    ensures Apply(Apply(Apply(
        World(map["t" := Done(APPROVED)], {"t"}, [ByHolder(APPROVED)], ["t"], ["t"]),
        Claim("t")), Claim("t")), Park("t"))
      == World(map["t" := Awaiting(1)], {"t"}, [ByHolder(APPROVED), REPLAY, REPLAY], ["t", "t"], ["t"])
  {
  }

  lemma CountAll()
    ensures Count(["t"], "t") == 1 && Count(["t", "t"], "t") == 2 && Count(["t", "t", "t"], "t") == 3
  {
    CountMore([], "t", "t");
    CountMore(["t"], "t", "t");
    CountMore(["t", "t"], "t", "t");
    assert [] + ["t"] == ["t"] && ["t"] + ["t"] == ["t", "t"] && ["t", "t"] + ["t"] == ["t", "t", "t"];
  }

  const BOTH_LOAD := STARTED_OVER + [Load(1), Load(2), Mint(1)]

  /** Both replays approve what they find parked: two starts lead to three mints. */
  lemma ThreeMintsTwoParks()
    ensures var w := After(BOTH_LOAD + [Mint(2), Record(1, ""), Record(2, "")]);
      Count(w.parks, "t") == 2 && Count(w.mints, "t") == 3
  {
    hide After, Apply, Count;
    StartedOver();
    Three(STARTED_OVER, Load(1), Load(2), Mint(1));
    BothLoad();
    Three(BOTH_LOAD, Mint(2), Record(1, ""), Record(2, ""));
    BothApprove();
    CountAll();
  }

  const TWO_HOLD := World(
    map["t" := Awaiting(1)], {"t"},
    [ByHolder(APPROVED), Request("t", AlreadyDone, Holding(1), true), Request("t", AlreadyDone, Holding(1), false)],
    ["t", "t"], ["t", "t"])

  lemma BothLoad()
    ensures Apply(Apply(Apply(
        World(map["t" := Awaiting(1)], {"t"}, [ByHolder(APPROVED), REPLAY, REPLAY], ["t", "t"], ["t"]),
        Load(1)), Load(2)), Mint(1))
      == TWO_HOLD
  {
  }

  lemma BothApprove()
    ensures var w := Apply(Apply(Apply(TWO_HOLD, Mint(2)), Record(1, "")), Record(2, ""));
      w.parks == ["t", "t"] && w.mints == ["t", "t", "t"]
  {
  }

  /** A replay that declines what it finds parked records all the same, and the thread was minted once. */
  lemma ADecliningReplay()
    ensures var w := After(STARTED_OVER + [Load(1), Record(1, ""), Save(1)]);
      && ReplayAt(w, 1, "t") && "t" in w.store && w.store["t"] == Done(Outcome(false, "")) && Count(w.mints, "t") == 1
  {
    StartedOver();
    Three(STARTED_OVER, Load(1), Record(1, ""), Save(1));
    CountAll();
    hide After, Count;
  }

  /** Only a request let in finishes a thread, so a finished one was claimed, and a replay found it so. */
  ghost predicate FinishedClaimed(w: World, t: string) {
    Spent(w, t) || (exists n :: ReplayAt(w, n, t)) ==> t in w.claimed
  }

  lemma FinishedKeeps(w: World, e: Event, t: string)
    requires ClaimsOk(w) && FinishedClaimed(w, t)
    ensures FinishedClaimed(Apply(w, e), t)
  {
    var w' := Apply(w, e);
    if e.Save? && e.request < |w.requests| && w.requests[e.request].threadId == t {
      assert Granted(w, e.request, t) || ReplayAt(w, e.request, t) || w' == w;
    }
    if n :| ReplayAt(w', n, t) { assert n < |w.requests| ==> ReplayAt(w, n, t); }
  }

  lemma {:induction false} FinishedReach(events: seq<Event>, t: string)
    ensures FinishedClaimed(After(events), t)
  {
    if events != [] {
      hide Apply, ClaimsOk, FinishedClaimed;
      var before := events[..|events| - 1];
      FinishedReach(before, t);
      ClaimsReach(before);
      FinishedKeeps(After(before), events[|before|], t);
    }
  }

  /** Starting a finished thread over wedges it, for the claim it was finished on is not given back. */
  lemma StartedOverIsStuck(events: seq<Event>, t: string)
    requires Spent(After(events), t) && NobodyWorks(After(events), t)
    ensures Stuck(After(events + [Park(t)]), t)
  {
    FinishedReach(events, t);
    Next(events, Park(t));
    hide After;
  }
}
