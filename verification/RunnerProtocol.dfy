/**
 * Any number of runs of stopped procedures over one cursor store. Each `await` of a run is a place where
 * another run may move, so a run is four separate steps: load, claim, invoke, and save or delete. What
 * the handlers produce is arbitrary, and any of them, or of the store's answers, may be a throw.
 */
module RunnerProtocol {
  import opened Base
  import opened Procedure
  import opened CursorStore
  import opened ProcedureRuntime

  /** A run: what it loaded and when, and how far it is. A run that loaded nothing takes no claim. */
  datatype Stage = Loaded | Granted | Refused | Invoked(cursor: AopCheckpoint) | Over | Thrown

  datatype Runner = Runner(threadId: string, existing: Option<AopCheckpoint>, loadedAt: nat, stage: Stage)

  /** What the store and the handlers saw, in order. */
  datatype Mark =
    | Grant(runner: nat, threadId: string)
    | Execution(runner: nat, threadId: string, resumed: bool)
    | Save(runner: nat, threadId: string)
    | Removal(runner: nat, threadId: string)

  datatype World = World(cursors: Cursors, runners: seq<Runner>, log: seq<Mark>)

  datatype Event =
    | Load(threadId: string)
    | Claim(runner: nat)
    | Invoke(runner: nat, cursor: AopCheckpoint)
    | Conclude(runner: nat)
    | Throw(runner: nat)

  const START := World(Cursors(map[], {}), [], [])

  function At(w: World, n: nat, stage: Stage): World
    requires n < |w.runners|
  {
    w.(runners := w.runners[n := w.runners[n].(stage := stage)])
  }

  /** A run may invoke its graph when it loaded no cursor, or was granted the one it loaded. */
  predicate MayInvoke(r: Runner) {
    (r.stage.Loaded? && r.existing.None?) || r.stage.Granted?
  }

  predicate Running(s: Stage) { s.Loaded? || s.Granted? || s.Invoked? }

  function Apply(w: World, e: Event): World {
    match e
    case Load(t) => w.(runners := w.runners + [Runner(t, LoadCursor(w.cursors, t), |w.log|, Loaded)])
    case Claim(n) =>
      if n < |w.runners| && w.runners[n].stage.Loaded? && w.runners[n].existing.Some? then
        var t := w.runners[n].threadId;
        if ClaimOf(w.cursors, t).Claimed? then
          At(w, n, Granted).(cursors := ClaimCursor(w.cursors, t), log := w.log + [Grant(n, t)])
        else At(w, n, Refused)
      else w
    case Invoke(n, cursor) =>
      if n < |w.runners| && MayInvoke(w.runners[n]) then
        var r := w.runners[n];
        At(w, n, Invoked(cursor.(threadId := r.threadId))).(log := w.log + [Execution(n, r.threadId, r.existing.Some?)])
      else w
    case Conclude(n) =>
      if n < |w.runners| && w.runners[n].stage.Invoked? then
        var r := w.runners[n];
        var w' := At(w, n, Over);
        if r.stage.cursor.terminal == Some(WaitingHuman) then
          w'.(cursors := SaveCursor(w.cursors, r.stage.cursor), log := w.log + [Save(n, r.threadId)])
        else if r.existing.Some? then
          w'.(cursors := DeleteCursor(w.cursors, r.threadId), log := w.log + [Removal(n, r.threadId)])
        else w'
      else w
    case Throw(n) => if n < |w.runners| && Running(w.runners[n].stage) then At(w, n, Thrown) else w
  }

  function After(events: seq<Event>): World {
    if events == [] then START else Apply(After(events[..|events| - 1]), events[|events| - 1])
  }

  /* ---- reading the log ---- */

  predicate Releases(m: Mark, t: string) { (m.Save? || m.Removal?) && m.threadId == t }

  /** A grant with no save or removal of the same thread after it. */
  function Held(log: seq<Mark>, t: string): bool {
    if log == [] then false
    else
      var last := log[|log| - 1];
      if Releases(last, t) then false
      else if last.Grant? && last.threadId == t then true
      else Held(log[..|log| - 1], t)
  }

  ghost predicate ReleasedBetween(log: seq<Mark>, t: string, i: nat, j: nat) {
    exists k :: i <= k < j < |log| + 1 && Releases(log[k], t)
  }

  lemma {:induction false} NotHeldAfterGrant(log: seq<Mark>, t: string, i: nat)
    requires i < |log| && log[i].Grant? && log[i].threadId == t && !Held(log, t)
    ensures ReleasedBetween(log, t, i, |log|)
  {
    var n := |log| - 1;
    if Releases(log[n], t) {
    } else {
      NotHeldAfterGrant(log[..n], t, i);
      var k :| i <= k < n && Releases(log[..n][k], t);
      assert Releases(log[k], t);
    }
  }

  /* ---- the invariant ---- */

  ghost predicate GrantsAlternate(log: seq<Mark>) {
    forall i, j :: 0 <= i < j < |log| && log[i].Grant? && log[j].Grant? && log[i].threadId == log[j].threadId ==>
      ReleasedBetween(log, log[i].threadId, i, j)
  }

  /** A run that loaded a cursor shows up as an execution only with its own grant before. */
  ghost predicate ResumesAreGranted(log: seq<Mark>) {
    forall j :: 0 <= j < |log| && log[j].Execution? && log[j].resumed ==>
      GrantedBefore(log, log[j].runner, log[j].threadId, j)
  }

  ghost predicate GrantedBefore(log: seq<Mark>, n: nat, t: string, j: nat) {
    Grant(n, t) in First(log, j)
  }

  ghost predicate RunnerOk(w: World, n: nat)
    requires n < |w.runners|
  {
    var r := w.runners[n];
    && r.loadedAt <= |w.log|
    && (r.stage.Granted? ==> r.existing.Some?)
    && (r.existing.Some? && (r.stage.Granted? || r.stage.Invoked? || r.stage.Over?) ==> Grant(n, r.threadId) in w.log)
    && (r.stage.Invoked? ==> r.stage.cursor.threadId == r.threadId)
    && (r.stage.Loaded? && !ReleasedBetween(w.log, r.threadId, r.loadedAt, |w.log|) ==>
         r.existing == LoadCursor(w.cursors, r.threadId))
  }

  ghost predicate Inv(w: World) {
    && w.cursors.claimed <= w.cursors.byThread.Keys
    && (forall t :: t in w.cursors.claimed <==> Held(w.log, t))
    && (forall n :: 0 <= n < |w.runners| ==> RunnerOk(w, n))
    && GrantsAlternate(w.log)
    && ResumesAreGranted(w.log)
  }

  lemma LogGrows(log: seq<Mark>, m: Mark)
    requires GrantsAlternate(log) && ResumesAreGranted(log)
    requires m.Grant? ==> !Held(log, m.threadId)
    requires m.Execution? && m.resumed ==> Grant(m.runner, m.threadId) in log
    ensures GrantsAlternate(log + [m]) && ResumesAreGranted(log + [m])
  {
    var log' := log + [m];
    forall i, j | 0 <= i < j < |log'| && log'[i].Grant? && log'[j].Grant? && log'[i].threadId == log'[j].threadId
      ensures ReleasedBetween(log', log'[i].threadId, i, j)
    {
      if j < |log| {
        assert ReleasedBetween(log, log[i].threadId, i, j);
      } else {
        NotHeldAfterGrant(log, m.threadId, i);
      }
      var k :| i <= k < j && Releases(log[k], log'[i].threadId);
      assert Releases(log'[k], log'[i].threadId);
    }
    forall j | 0 <= j < |log'| && log'[j].Execution? && log'[j].resumed
      ensures GrantedBefore(log', log'[j].runner, log'[j].threadId, j)
    {
      if j < |log| {
        assert log[j] == log'[j] && GrantedBefore(log, log[j].runner, log[j].threadId, j)
          && First(log', j) == First(log, j);
      } else {
        assert First(log', j) == log;
      }
    }
  }

  /** Stages and log moved on for one run; every other run still holds. */
  lemma RunnersKeep(w: World, w': World, n: nat)
    requires n < |w.runners| && forall k :: 0 <= k < |w.runners| ==> RunnerOk(w, k)
    requires |w'.runners| == |w.runners| && forall k :: 0 <= k < |w.runners| && k != n ==> w'.runners[k] == w.runners[k]
    requires w'.log == w.log || (exists m :: w'.log == w.log + [m])
    requires forall t :: LoadCursor(w'.cursors, t) != LoadCursor(w.cursors, t) ==>
      |w'.log| == |w.log| + 1 && Releases(w'.log[|w.log|], t)
    requires RunnerOk(w', n)
    ensures forall k :: 0 <= k < |w'.runners| ==> RunnerOk(w', k)
  {
    forall k | 0 <= k < |w'.runners| && k != n ensures RunnerOk(w', k) {
      var r := w.runners[k];
      assert RunnerOk(w, k);
      if ReleasedBetween(w.log, r.threadId, r.loadedAt, |w.log|) {
        var i :| r.loadedAt <= i < |w.log| && Releases(w.log[i], r.threadId);
        assert Releases(w'.log[i], r.threadId);
      }
    }
  }

  lemma HeldAfter(log: seq<Mark>, m: Mark, t: string)
    ensures Held(log + [m], t) == if Releases(m, t) then false else (m.Grant? && m.threadId == t) || Held(log, t)
  {
    assert (log + [m])[..|log|] == log;
  }

  lemma LoadKeeps(w: World, t: string)
    requires Inv(w)
    ensures Inv(Apply(w, Load(t)))
  {
    var w' := Apply(w, Load(t));
    forall n | 0 <= n < |w'.runners| ensures RunnerOk(w', n) {
      if n < |w.runners| { assert RunnerOk(w, n) && w'.runners[n] == w.runners[n]; }
    }
  }

  lemma ClaimKeeps(w: World, n: nat)
    requires Inv(w)
    ensures Inv(Apply(w, Claim(n)))
  {
    hide GrantsAlternate, ResumesAreGranted;
    var w' := Apply(w, Claim(n));
    if w' != w {
      assert RunnerOk(w, n);
      var t := w.runners[n].threadId;
      if ClaimOf(w.cursors, t).Claimed? {
        LogGrows(w.log, Grant(n, t));
        forall u ensures u in w'.cursors.claimed <==> Held(w'.log, u) { HeldAfter(w.log, Grant(n, t), u); }
      }
      RunnersKeep(w, w', n);
    }
  }

  lemma InvokeKeeps(w: World, n: nat, cursor: AopCheckpoint)
    requires Inv(w)
    ensures Inv(Apply(w, Invoke(n, cursor)))
  {
    hide GrantsAlternate, ResumesAreGranted;
    var w' := Apply(w, Invoke(n, cursor));
    if w' != w {
      assert RunnerOk(w, n);
      var m := Execution(n, w.runners[n].threadId, w.runners[n].existing.Some?);
      LogGrows(w.log, m);
      forall u ensures u in w'.cursors.claimed <==> Held(w'.log, u) { HeldAfter(w.log, m, u); }
      RunnersKeep(w, w', n);
    }
  }

  lemma ConcludeKeeps(w: World, n: nat)
    requires Inv(w)
    ensures Inv(Apply(w, Conclude(n)))
  {
    hide GrantsAlternate, ResumesAreGranted;
    var w' := Apply(w, Conclude(n));
    if w' != w {
      assert RunnerOk(w, n);
      if w'.log != w.log {
        var m := w'.log[|w.log|];
        assert w'.log == w.log + [m];
        LogGrows(w.log, m);
        forall u ensures u in w'.cursors.claimed <==> Held(w'.log, u) { HeldAfter(w.log, m, u); }
      }
      RunnersKeep(w, w', n);
    }
  }

  lemma ThrowKeeps(w: World, n: nat)
    requires Inv(w)
    ensures Inv(Apply(w, Throw(n)))
  {
    hide GrantsAlternate, ResumesAreGranted;
    var w' := Apply(w, Throw(n));
    if w' != w {
      assert RunnerOk(w, n);
      RunnersKeep(w, w', n);
    }
  }

  lemma {:induction false} Reachable(events: seq<Event>)
    ensures Inv(After(events))
  {
    if events != [] {
      var w := After(events[..|events| - 1]);
      Reachable(events[..|events| - 1]);
      match events[|events| - 1] {
        case Load(t) => LoadKeeps(w, t);
        case Claim(n) => ClaimKeeps(w, n);
        case Invoke(n, c) => InvokeKeeps(w, n, c);
        case Conclude(n) => ConcludeKeeps(w, n);
        case Throw(n) => ThrowKeeps(w, n);
      }
    }
  }

  /* ---- what the protocol promises ---- */

  /**
   * Main result, in every interleaving. Claims exist only for stored cursors; between two grants of one
   * thread its cursor was saved or deleted; a run that loaded a cursor executed only after its own grant.
   */
  lemma ClaimProtocol(events: seq<Event>)
    ensures var w := After(events);
      && w.cursors.claimed <= w.cursors.byThread.Keys
      && GrantsAlternate(w.log)
      && ResumesAreGranted(w.log)
  {
    Reachable(events);
  }

  /** A claim is granted on exactly the cursor the run loaded, unless the thread was saved or deleted in between. */
  lemma GrantedOnWhatWasLoaded(events: seq<Event>, n: nat)
    requires var w := After(events);
      && n < |w.runners| && w.runners[n].stage.Loaded? && Apply(w, Claim(n)).runners[n].stage.Granted?
      && !ReleasedBetween(w.log, w.runners[n].threadId, w.runners[n].loadedAt, |w.log|)
    ensures var w := After(events); LoadCursor(w.cursors, w.runners[n].threadId) == w.runners[n].existing
  {
    Reachable(events);
    assert RunnerOk(After(events), n);
  }

  /** A resumed run of the thread at work: granted, and not over. */
  ghost predicate AtWork(w: World, n: int, t: string) {
    0 <= n < |w.runners| && w.runners[n].threadId == t && w.runners[n].existing.Some?
    && (w.runners[n].stage.Granted? || w.runners[n].stage.Invoked?)
  }

  ghost predicate Exclusive(w: World, t: string) {
    && (forall m, n :: AtWork(w, m, t) && AtWork(w, n, t) ==> m == n)
    && (forall n :: AtWork(w, n, t) ==> t in w.cursors.claimed)
  }

  /** A run that loaded no cursor, about to save one on a thread whose cursor another run holds. */
  ghost predicate FreshSave(w: World, e: Event, t: string) {
    && e.Conclude? && e.runner < |w.runners|
    && var r := w.runners[e.runner];
       r.threadId == t && r.existing.None? && r.stage.Invoked? && r.stage.cursor.terminal == Some(WaitingHuman)
  }

  /**
   * Exactly one kind of step takes the cursor from under a run at work: a run that began before the
   * cursor existed, saving its own.
   */
  lemma OnlyAFreshSaveBreaksIn(w: World, e: Event, t: string)
    requires Inv(w) && Exclusive(w, t)
    ensures !Exclusive(Apply(w, e), t) <==> FreshSave(w, e, t) && exists n :: AtWork(w, n, t)
  {
    var w' := Apply(w, e);
    if FreshSave(w, e, t) {
      forall n | AtWork(w, n, t) ensures AtWork(w', n, t) && t !in w'.cursors.claimed { assert RunnerOk(w, e.runner); }
    } else {
      StaysExclusive(w, e, t);
    }
    if FreshSave(w, e, t) && !(exists n :: AtWork(w, n, t)) {
      assert forall n :: AtWork(w', n, t) ==> AtWork(w, n, t);
    }
  }

  lemma StaysExclusive(w: World, e: Event, t: string)
    requires Inv(w) && Exclusive(w, t) && !FreshSave(w, e, t)
    ensures Exclusive(Apply(w, e), t)
  {
    hide GrantsAlternate, ResumesAreGranted, Held;
    var w' := Apply(w, e);
    match e {
      case Load(_) => assert forall n :: AtWork(w', n, t) ==> AtWork(w, n, t);
      case Claim(n) => assert forall k :: AtWork(w', k, t) && k != n ==> AtWork(w, k, t);
      case Invoke(n, _) =>
        if n < |w.runners| { assert RunnerOk(w, n); }
        assert forall k :: AtWork(w', k, t) ==> AtWork(w, k, t);
      case Conclude(n) =>
        if n < |w.runners| && w.runners[n].stage.Invoked? {
          assert RunnerOk(w, n);
          assert forall k :: AtWork(w', k, t) ==> AtWork(w, k, t) && k != n;
          if w.runners[n].threadId == t && w.runners[n].existing.Some? { assert AtWork(w, n, t); }
        }
      case Throw(_) => assert forall n :: AtWork(w', n, t) ==> AtWork(w, n, t);
    }
  }

  ghost predicate NoFreshSave(events: seq<Event>, t: string) {
    forall i :: 0 <= i < |events| ==> !FreshSave(After(events[..i]), events[i], t)
  }

  /** Without such a save, at most one resumed run of a thread is ever at work, and it holds the claim. */
  lemma {:induction false} OneResumeAtATime(events: seq<Event>, t: string)
    requires NoFreshSave(events, t)
    ensures Exclusive(After(events), t)
  {
    if events != [] {
      var before := events[..|events| - 1];
      forall i | 0 <= i < |before| ensures !FreshSave(After(before[..i]), before[i], t) {
        assert before[..i] == events[..i];
      }
      OneResumeAtATime(before, t);
      Reachable(before);
      StaysExclusive(After(before), events[|events| - 1], t);
    }
  }

  /** Left alone, the four steps are the run: same store, same verdict. */
  lemma UninterruptedRun(w: World, t: string, cursor: AopCheckpoint)
    requires cursor.threadId == t
    ensures var n := |w.runners|;
      var existing := LoadCursor(w.cursors, t);
      var w' := Apply(Apply(Apply(Apply(w, Load(t)), Claim(n)), Invoke(n, cursor)), Conclude(n));
      if existing.Some? && !ClaimOf(w.cursors, t).Claimed? then w'.cursors == w.cursors && w'.runners[n].stage.Refused?
      else
        && w'.runners[n].stage.Over?
        && w'.cursors == Settled(
             if existing.Some? then ClaimCursor(w.cursors, t) else w.cursors, existing, t, cursor,
             INITIAL.(terminal := cursor.terminal))
  {
    var n := |w.runners|;
    var w1 := Apply(w, Load(t));
    assert w1.runners[n] == Runner(t, LoadCursor(w.cursors, t), |w.log|, Loaded);
    var w2 := Apply(w1, Claim(n));
    var w3 := Apply(w2, Invoke(n, cursor));
    if !w2.runners[n].stage.Refused? {
      assert w3.runners[n].stage == Invoked(cursor);
      SavedOverAClaim(w.cursors, cursor);
    }
  }

  lemma SavedOverAClaim(cs: Cursors, cursor: AopCheckpoint)
    ensures SaveCursor(ClaimCursor(cs, cursor.threadId), cursor).claimed == SaveCursor(cs, cursor).claimed
  {
  }

  /* ---- a claim nobody gives back ---- */

  /** A run that loaded no cursor and can still save one. */
  ghost predicate FreshOpen(w: World, n: int, t: string) {
    && 0 <= n < |w.runners| && w.runners[n].threadId == t && w.runners[n].existing.None?
    && var s := w.runners[n].stage; s.Loaded? || (s.Invoked? && s.cursor.terminal == Some(WaitingHuman))
  }

  /** The cursor is claimed, no resumed run is at work on it, and no run is left that would save over it. */
  ghost predicate Stuck(w: World, t: string) {
    && t in w.cursors.claimed
    && forall n :: !AtWork(w, n, t) && !FreshOpen(w, n, t)
  }

  /** What is stored stopped for a person. */
  ghost predicate AllWaiting(w: World) {
    forall t :: t in w.cursors.byThread ==> w.cursors.byThread[t].terminal == Some(WaitingHuman)
  }

  lemma WaitingKeeps(w: World, e: Event)
    requires AllWaiting(w)
    ensures AllWaiting(Apply(w, e))
  {
  }

  lemma {:induction false} WaitingReach(events: seq<Event>)
    ensures AllWaiting(After(events))
  {
    if events != [] {
      hide Apply, AllWaiting;
      WaitingReach(events[..|events| - 1]);
      WaitingKeeps(After(events[..|events| - 1]), events[|events| - 1]);
    } else {
      assert AllWaiting(START);
    }
  }

  lemma StuckStays(w: World, e: Event, t: string)
    requires Inv(w) && Stuck(w, t)
    ensures Stuck(Apply(w, e), t)
  {
    hide GrantsAlternate, ResumesAreGranted, Held;
    var w' := Apply(w, e);
    forall n ensures !AtWork(w', n, t) && !FreshOpen(w', n, t) {
      assert !AtWork(w, n, t) && !FreshOpen(w, n, t);
      if e.Load? && n == |w.runners| {
        assert w'.runners[n] == Runner(e.threadId, LoadCursor(w.cursors, e.threadId), |w.log|, Loaded);
      } else if 0 <= n < |w.runners| && w'.runners[n] != w.runners[n] {
        assert RunnerOk(w, n);
      }
    }
    if e.Conclude? && e.runner < |w.runners| {
      assert RunnerOk(w, e.runner) && !AtWork(w, e.runner, t) && !FreshOpen(w, e.runner, t);
    }
  }

  lemma Next(events: seq<Event>, e: Event)
    ensures After(events + [e]) == Apply(After(events), e)
  {
    hide Apply;
    assert (events + [e])[..|events|] == events;
  }

  lemma {:induction false} StuckAfter(events: seq<Event>, rest: seq<Event>, t: string)
    requires Stuck(After(events), t)
    ensures Stuck(After(events + rest), t)
  {
    hide Apply, Stuck, Inv;
    if rest == [] {
      assert events + rest == events;
    } else {
      var before, e := events + rest[..|rest| - 1], rest[|rest| - 1];
      StuckAfter(events, rest[..|rest| - 1], t);
      Reachable(before);
      StuckStays(After(before), e, t);
      Next(before, e);
      assert events + rest == before + [e];
    }
  }

  /** No run will ever be granted the thread's cursor again, whatever happens. */
  ghost predicate RefusedForGood(events: seq<Event>, t: string) {
    forall rest: seq<Event> :: ClaimOf(After(events + rest).cursors, t).Conflict?
  }

  /**
   * Main result. A thread's cursor is refused for good exactly when it is claimed while no resumed run is at
   * work on it and no run that loaded none can still save one: whoever held it threw.
   */
  lemma RefusedForGoodIffStuck(events: seq<Event>, t: string)
    ensures RefusedForGood(events, t) <==> Stuck(After(events), t)
  {
    hide Apply, Inv;
    if Stuck(After(events), t) {
      forall rest: seq<Event> ensures ClaimOf(After(events + rest).cursors, t).Conflict? {
        StuckAfter(events, rest, t);
        Reachable(events + rest);
        WaitingReach(events + rest);
        ClaimedRefuses(After(events + rest), t);
      }
    } else {
      var rest := AWayOn(events, t);
      assert !ClaimOf(After(events + rest).cursors, t).Conflict?;
    }
  }

  lemma ClaimedRefuses(w: World, t: string)
    requires Inv(w) && AllWaiting(w) && t in w.cursors.claimed
    ensures ClaimOf(w.cursors, t).Conflict?
  {
  }

  lemma AWayOn(events: seq<Event>, t: string) returns (rest: seq<Event>)
    requires !Stuck(After(events), t)
    ensures !ClaimOf(After(events + rest).cursors, t).Conflict?
  {
    var w := After(events);
    if t !in w.cursors.claimed {
      rest := [];
      assert events + rest == events;
    } else {
      var n: nat :| AtWork(w, n, t) || FreshOpen(w, n, t);
      Reachable(events);
      rest := [Invoke(n, WAITING), Conclude(n)];
      Next(events, Invoke(n, WAITING));
      Next(events + [Invoke(n, WAITING)], Conclude(n));
      assert events + rest == (events + [Invoke(n, WAITING)]) + [Conclude(n)];
      ConcludingReleases(w, n, t);
    }
  }

  lemma ConcludingReleases(w: World, n: nat, t: string)
    requires Inv(w) && (AtWork(w, n, t) || FreshOpen(w, n, t))
    ensures !ClaimOf(Apply(Apply(w, Invoke(n, WAITING)), Conclude(n)).cursors, t).Conflict?
  {
    hide GrantsAlternate, ResumesAreGranted, Held;
    assert RunnerOk(w, n);
  }

  /** So one throw of the run that holds a cursor, with no older run left to save over it, ends the thread. */
  lemma AThrowWedges(events: seq<Event>, n: nat, t: string)
    requires AtWork(After(events), n, t) && Exclusive(After(events), t)
    requires forall k :: !FreshOpen(After(events), k, t)
    ensures RefusedForGood(events + [Throw(n)], t)
  {
    Next(events, Throw(n));
    ThrownIsStuck(After(events), n, t);
    hide *;
    RefusedForGoodIffStuck(events + [Throw(n)], t);
  }

  lemma ThrownIsStuck(w: World, n: nat, t: string)
    requires AtWork(w, n, t) && Exclusive(w, t) && forall k :: !FreshOpen(w, k, t)
    ensures Stuck(Apply(w, Throw(n)), t)
  {
    var w' := Apply(w, Throw(n));
    forall k ensures !AtWork(w', k, t) && !FreshOpen(w', k, t) {
      assert !FreshOpen(w, k, t) && (AtWork(w, k, t) ==> k == n);
    }
  }

  /* ---- what it does not promise ---- */

  const WAITING := AopCheckpoint(
    "t", "c", CaptureKnowledge, "v1", "resume", ["resume"], map["draftVersion" := Some("1")], None, None,
    Some(WaitingHuman), None, None, "")

  /**
   * A claim does not re-read. Whenever one run holds the cursor that another has loaded too, and stops for
   * a person again, the other is granted next and goes on with what it loaded, whatever is stored now.
   */
  lemma GrantedOnAReplacedCursor(w: World, holder: nat, late: nat, cursor: AopCheckpoint)
    requires holder < |w.runners| && late < |w.runners| && holder != late
    requires w.runners[holder].stage.Granted? && w.runners[late].stage.Loaded? && w.runners[late].existing.Some?
    requires w.runners[holder].threadId == w.runners[late].threadId == cursor.threadId
    requires cursor.terminal == Some(WaitingHuman)
    ensures var w' := Apply(Apply(Apply(w, Invoke(holder, cursor)), Conclude(holder)), Claim(late));
      && w'.runners[late] == w.runners[late].(stage := Granted)
      && LoadCursor(w'.cursors, cursor.threadId) == Some(Sanitize(cursor))
  {
    var w1 := Apply(w, Invoke(holder, cursor));
    assert w1.runners[holder].stage == Invoked(cursor) && w1.runners[late] == w.runners[late];
    var w2 := Apply(w1, Conclude(holder));
    assert w2.cursors == SaveCursor(w1.cursors, cursor) && w2.runners[late] == w.runners[late];
  }

  /** It happens: a reachable world in which the granted run stands on references the store no longer holds. */
  lemma StaleResume()
    ensures exists events :: var w := After(events);
      && |w.runners| == 3 && w.runners[1].stage.Granted?
      && LoadCursor(w.cursors, "t").Some? && w.runners[1].existing.Some?
      && LoadCursor(w.cursors, "t").value.refs != w.runners[1].existing.value.refs
  {
    hide Apply, LoadCursor;
    var w3 := After([Load("t"), Invoke(0, WAITING), Conclude(0)]);
    var w6 := AfterSix();
    var events := UNTIL_SIX + [Invoke(2, REPLACEMENT), Conclude(2), Claim(1)];
    assert events[..6] == UNTIL_SIX;
    Steps(events, 6);
    Steps(events, 7);
    Steps(events, 8);
    assert events[..9] == events;
    GrantedOnAReplacedCursor(w6, 2, 1, REPLACEMENT);
    ThreeRunners(w6);
    assert After(events).runners[1].existing == Some(Sanitize(WAITING));
    assert Sanitize(WAITING).refs["draftVersion"] == Some("1")
      && Sanitize(REPLACEMENT).refs["draftVersion"] == Some("2");
  }

  lemma ThreeRunners(w: World)
    requires |w.runners| == 3
    ensures |Apply(Apply(Apply(w, Invoke(2, REPLACEMENT)), Conclude(2)), Claim(1)).runners| == 3
  {
  }

  const REPLACEMENT := WAITING.(refs := map["draftVersion" := Some("2")])

  const UNTIL_SIX := [Load("t"), Invoke(0, WAITING), Conclude(0), Load("t"), Load("t"), Claim(2)]

  lemma AfterSix() returns (w: World)
    ensures w == After(UNTIL_SIX)
    ensures w.cursors == Cursors(map["t" := Sanitize(WAITING)], {"t"})
    ensures var w3 := After([Load("t"), Invoke(0, WAITING), Conclude(0)]);
      && |w.runners| == 3 && w.runners[1] == Runner("t", Some(Sanitize(WAITING)), |w3.log|, Loaded)
      && w.runners[2] == Runner("t", Some(Sanitize(WAITING)), |w3.log|, Granted)
  {
    hide After;
    var w3 := AfterThree();
    assert UNTIL_SIX[..3] == [Load("t"), Invoke(0, WAITING), Conclude(0)];
    Steps(UNTIL_SIX, 3);
    Steps(UNTIL_SIX, 4);
    Steps(UNTIL_SIX, 5);
    assert UNTIL_SIX[..6] == UNTIL_SIX;
    w := After(UNTIL_SIX);
    var w4 := After(UNTIL_SIX[..4]);
    assert w4.runners == w3.runners + [Runner("t", Some(Sanitize(WAITING)), |w3.log|, Loaded)];
  }

  lemma Steps(events: seq<Event>, n: nat)
    requires n < |events|
    ensures After(events[..n + 1]) == Apply(After(events[..n]), events[n])
  {
    assert events[..n + 1][..n] == events[..n];
  }

  lemma AfterThree() returns (w: World)
    ensures w == After([Load("t"), Invoke(0, WAITING), Conclude(0)])
    ensures w.cursors == Cursors(map["t" := Sanitize(WAITING)], {})
    ensures w.runners == [Runner("t", None, 0, Over)]
  {
    var events := [Load("t"), Invoke(0, WAITING), Conclude(0)];
    Steps(events, 0);
    Steps(events, 1);
    Steps(events, 2);
    assert events[..0] == [] && events[..3] == events;
    w := After(events);
  }

  /** With no cursor stored there is no claim to take: two first runs of one thread both execute. */
  lemma TwoFreshRuns()
    ensures exists events :: var w := After(events);
      && Execution(0, "t", false) in w.log && Execution(1, "t", false) in w.log
      && forall m :: m in w.log ==> !m.Grant?
  {
    var events := [Load("t"), Load("t"), Invoke(0, WAITING), Invoke(1, WAITING)];
    Steps(events, 0);
    Steps(events, 1);
    Steps(events, 2);
    Steps(events, 3);
    assert events[..0] == [] && events[..4] == events;
    var w := After(events);
    assert w.log == [Execution(0, "t", false), Execution(1, "t", false)];
    assert w.log[0] in w.log && w.log[1] in w.log;
  }

  /** A fresh save under a resumed run lets the next run in beside it. */
  lemma AFreshSaveLetsIn(w: World, holder: nat, newcomer: nat, t: string)
    requires Inv(w) && AtWork(w, holder, t) && FreshSave(w, Conclude(newcomer), t)
    ensures var last := |w.runners|;
      var w' := Apply(Apply(Apply(w, Conclude(newcomer)), Load(t)), Claim(last));
      AtWork(w', holder, t) && AtWork(w', last, t) && holder != last
  {
    assert RunnerOk(w, newcomer);
    hide GrantsAlternate, ResumesAreGranted, Held, RunnerOk;
    var w1 := Apply(w, Conclude(newcomer));
    assert w1.runners[holder] == w.runners[holder] && |w1.runners| == |w.runners|;
    assert ClaimOf(w1.cursors, t).Claimed?;
    var w2 := Apply(w1, Load(t));
    assert w2.runners[holder] == w.runners[holder] && w2.runners[|w.runners|].existing.Some?;
  }

  const TWO_FRESH := [Load("t"), Load("t"), Invoke(0, WAITING), Conclude(0)]

  const FRESH_UNDER_RESUMED := TWO_FRESH + [Load("t"), Claim(2), Invoke(1, WAITING)]

  const AFTER_TWO_FRESH := World(
    Cursors(map["t" := Sanitize(WAITING)], {}), [Runner("t", None, 0, Over), Runner("t", None, 0, Loaded)],
    [Execution(0, "t", false), Save(0, "t")])

  lemma AfterTwoFresh()
    ensures After(TWO_FRESH) == AFTER_TWO_FRESH
  {
    hide Sanitize;
    Steps(TWO_FRESH, 0);
    Steps(TWO_FRESH, 1);
    Steps(TWO_FRESH, 2);
    Steps(TWO_FRESH, 3);
    assert TWO_FRESH[..0] == [] && TWO_FRESH[..4] == TWO_FRESH;
  }

  lemma FreshBesideResumed()
    ensures var w := Apply(Apply(Apply(AFTER_TWO_FRESH, Load("t")), Claim(2)), Invoke(1, WAITING));
      |w.runners| == 3 && AtWork(w, 2, "t") && FreshSave(w, Conclude(1), "t")
  {
    var w1 := Apply(AFTER_TWO_FRESH, Load("t"));
    assert w1.runners[2] == Runner("t", Some(Sanitize(WAITING)), 2, Loaded);
    assert Sanitize(WAITING).terminal == Some(WaitingHuman);
    var w2 := Apply(w1, Claim(2));
    assert w2.runners[2].stage == Granted;
  }

  lemma AfterFreshUnderResumed()
    ensures var w := After(FRESH_UNDER_RESUMED);
      |w.runners| == 3 && AtWork(w, 2, "t") && FreshSave(w, Conclude(1), "t")
  {
    hide After, Apply, AtWork, FreshSave;
    AfterTwoFresh();
    FreshBesideResumed();
    assert FRESH_UNDER_RESUMED[..4] == TWO_FRESH && FRESH_UNDER_RESUMED[..7] == FRESH_UNDER_RESUMED;
    Steps(FRESH_UNDER_RESUMED, 4);
    Steps(FRESH_UNDER_RESUMED, 5);
    Steps(FRESH_UNDER_RESUMED, 6);
  }

  /** It happens: a reachable world in which two resumed runs of one thread are at work at once. */
  lemma TwoResumedRuns()
    ensures var w := After(FRESH_UNDER_RESUMED + [Conclude(1), Load("t"), Claim(3)]);
      AtWork(w, 2, "t") && AtWork(w, 3, "t") && !Exclusive(w, "t")
  {
    var events := FRESH_UNDER_RESUMED + [Conclude(1), Load("t"), Claim(3)];
    AfterFreshUnderResumed();
    Reachable(FRESH_UNDER_RESUMED);
    AFreshSaveLetsIn(After(FRESH_UNDER_RESUMED), 2, 1, "t");
    hide After, Apply, Inv, FreshSave;
    assert events[..7] == FRESH_UNDER_RESUMED && events[..10] == events;
    Steps(events, 7);
    Steps(events, 8);
    Steps(events, 9);
  }
}
