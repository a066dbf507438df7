/**
 * One lane per conversation: `turn` chains each request behind the promise the map holds, replaces the
 * entry, and on the way out removes the entry if it is still its own. Turns are numbered by arrival.
 */
module Lanes {
  import opened Base

  /** `Settled`: the promise is resolved or rejected. `Left`: the `finally` block has run as well. */
  datatype Stage = Queued | Running | Settled(failed: bool) | Left(failed: bool)

  datatype Turn = Turn(conversation: string, waitsFor: Option<nat>, stage: Stage)

  datatype World = World(turns: seq<Turn>, lanes: map<string, nat>)

  datatype Event =
    | Arrive(conversation: string)
    | Start(turn: nat)
    | Finish(turn: nat, failed: bool)
    | Leave(turn: nat)

  const START := World([], map[])

  predicate Done(t: Turn) { t.stage.Settled? || t.stage.Left? }

  /** A `then` runs once the promise it waits for is settled; `catch` makes a failure look like success. */
  predicate MayStart(w: World, n: nat)
    requires n < |w.turns|
  {
    var t := w.turns[n];
    t.stage.Queued?
    && (t.waitsFor.None? || (t.waitsFor.value < |w.turns| && Done(w.turns[t.waitsFor.value])))
  }

  function Move(w: World, n: nat, stage: Stage): World
    requires n < |w.turns|
  {
    w.(turns := w.turns[n := w.turns[n].(stage := stage)])
  }

  function Apply(w: World, e: Event): World {
    match e
    case Arrive(c) =>
      var previous := if c in w.lanes then Some(w.lanes[c]) else None;
      World(w.turns + [Turn(c, previous, Queued)], w.lanes[c := |w.turns|])
    case Start(n) => if n < |w.turns| && MayStart(w, n) then Move(w, n, Running) else w
    case Finish(n, failed) => if n < |w.turns| && w.turns[n].stage.Running? then Move(w, n, Settled(failed)) else w
    case Leave(n) =>
      if n < |w.turns| && w.turns[n].stage.Settled? then
        var c := w.turns[n].conversation;
        Move(w, n, Left(w.turns[n].stage.failed))
        .(lanes := if c in w.lanes && w.lanes[c] == n then w.lanes - {c} else w.lanes)
      else w
  }

  function After(events: seq<Event>): World {
    if events == [] then START else Apply(After(events[..|events| - 1]), events[|events| - 1])
  }

  /* ---- the invariant ---- */

  ghost predicate Same(w: World, m: int, n: int) {
    0 <= m < n < |w.turns| && w.turns[m].conversation == w.turns[n].conversation
  }

  /** A turn waits for the latest earlier turn of its conversation, or found every earlier one done. */
  ghost predicate Chained(w: World) {
    && (forall n :: 0 <= n < |w.turns| && w.turns[n].waitsFor.Some? ==> Same(w, w.turns[n].waitsFor.value, n))
    && (forall m, n :: Same(w, m, n) ==>
         if w.turns[n].waitsFor.Some? then m <= w.turns[n].waitsFor.value else Done(w.turns[m]))
  }

  /** Nothing runs before everything earlier in its conversation is done. */
  ghost predicate InCallOrder(w: World) {
    forall m, n :: Same(w, m, n) && !w.turns[n].stage.Queued? ==> Done(w.turns[m])
  }

  /** The map holds the latest turn of a conversation until that turn has left, and otherwise nothing is unfinished. */
  ghost predicate MapOk(w: World) {
    && (forall c :: c in w.lanes ==>
         w.lanes[c] < |w.turns| && w.turns[w.lanes[c]].conversation == c && !w.turns[w.lanes[c]].stage.Left?)
    && (forall n :: 0 <= n < |w.turns| ==>
         if w.turns[n].conversation in w.lanes then n <= w.lanes[w.turns[n].conversation] else Done(w.turns[n]))
  }

  ghost predicate Inv(w: World) { Chained(w) && InCallOrder(w) && MapOk(w) }

  lemma ArriveKeeps(w: World, c: string)
    requires Inv(w)
    ensures Inv(Apply(w, Arrive(c)))
  {
    var w' := Apply(w, Arrive(c));
    assert forall m, n :: Same(w', m, n) && n < |w.turns| ==> Same(w, m, n);
    assert forall n :: 0 <= n < |w.turns| ==> w'.turns[n] == w.turns[n];
  }

  /** A turn that may start finds every earlier turn of its conversation done. */
  lemma StartsAlone(w: World, n: nat, m: int)
    requires Chained(w) && InCallOrder(w) && n < |w.turns| && MayStart(w, n) && Same(w, m, n)
    ensures Done(w.turns[m])
  {
    if w.turns[n].waitsFor.Some? {
      var p := w.turns[n].waitsFor.value;
      assert Same(w, p, n);
      if m < p { assert Same(w, m, p); }
    }
  }

  lemma StartKeepsOrder(w: World, n: nat)
    requires Chained(w) && InCallOrder(w) && n < |w.turns| && MayStart(w, n)
    ensures Chained(Move(w, n, Running)) && InCallOrder(Move(w, n, Running))
  {
    var w' := Move(w, n, Running);
    assert forall a, b :: Same(w', a, b) <==> Same(w, a, b);
    forall m | Same(w, m, n) ensures Done(w.turns[m]) { StartsAlone(w, n, m); }
  }

  lemma StartKeeps(w: World, n: nat)
    requires Inv(w) && n < |w.turns| && MayStart(w, n)
    ensures Inv(Move(w, n, Running))
  {
    StartKeepsOrder(w, n);
    hide Chained, InCallOrder;
  }

  lemma StepKeeps(w: World, e: Event)
    requires Inv(w)
    ensures Inv(Apply(w, e))
  {
    match e {
      case Arrive(c) => ArriveKeeps(w, c);
      case Start(n) => if n < |w.turns| && MayStart(w, n) { StartKeeps(w, n); }
      case Finish(n, failed) =>
        var w' := Apply(w, e);
        assert forall a, b :: Same(w', a, b) <==> Same(w, a, b);
      case Leave(n) => LeaveKeeps(w, n);
    }
  }

  /** Stages alone moved: the chain is as it was, and so is the call order when the same turns are done or queued. */
  lemma StagesOnly(w: World, w': World)
    requires Chained(w) && InCallOrder(w) && |w'.turns| == |w.turns|
    requires forall i :: 0 <= i < |w.turns| ==>
      && w'.turns[i].conversation == w.turns[i].conversation && w'.turns[i].waitsFor == w.turns[i].waitsFor
      && (Done(w'.turns[i]) <==> Done(w.turns[i])) && (w'.turns[i].stage.Queued? <==> w.turns[i].stage.Queued?)
    ensures Chained(w') && InCallOrder(w')
  {
    assert forall a, b :: Same(w', a, b) <==> Same(w, a, b);
  }

  lemma LeaveKeeps(w: World, n: nat)
    requires Inv(w)
    ensures Inv(Apply(w, Leave(n)))
  {
    hide Chained, InCallOrder;
    var w' := Apply(w, Leave(n));
    StagesOnly(w, w');
    if w' != w && w.turns[n].conversation in w.lanes && w.lanes[w.turns[n].conversation] == n {
      forall m | 0 <= m < |w.turns| && w.turns[m].conversation == w.turns[n].conversation
        ensures Done(w'.turns[m])
      {
        if m < n { EarlierDone(w, m, n); }
      }
    }
  }

  lemma EarlierDone(w: World, m: nat, n: nat)
    requires InCallOrder(w) && Same(w, m, n) && !w.turns[n].stage.Queued?
    ensures Done(w.turns[m])
  {
  }

  lemma {:induction false} Reachable(events: seq<Event>)
    ensures Inv(After(events))
  {
    if events != [] {
      Reachable(events[..|events| - 1]);
      StepKeeps(After(events[..|events| - 1]), events[|events| - 1]);
    }
  }

  /* ---- what the lane promises ---- */

  /** In every run: two turns of one conversation never run together, and they start in the order they were called. */
  lemma MutualExclusion(events: seq<Event>, m: nat, n: nat)
    requires Same(After(events), m, n)
    ensures var w := After(events);
      && !(w.turns[m].stage.Running? && w.turns[n].stage.Running?)
      && (!w.turns[n].stage.Queued? ==> Done(w.turns[m]))
  {
    Reachable(events);
  }

  /** An entry leaves the map only with nothing left in its lane; once every turn has left, the map is empty. */
  lemma RemovalIsSafe(events: seq<Event>)
    ensures var w := After(events);
      forall n :: 0 <= n < |w.turns| && w.turns[n].conversation !in w.lanes ==> Done(w.turns[n])
    ensures var w := After(events);
      (forall n :: 0 <= n < |w.turns| ==> w.turns[n].stage.Left?) ==> w.lanes == map[]
  {
    Reachable(events);
    var w := After(events);
    if forall n :: 0 <= n < |w.turns| ==> w.turns[n].stage.Left? {
      forall c ensures c !in w.lanes { }
    }
  }

  /** The first unfinished turn of a lane at or before `n`. */
  lemma {:induction false} FirstUnfinished(w: World, n: nat) returns (k: nat)
    requires Inv(w) && n < |w.turns| && !Done(w.turns[n])
    ensures k <= n && w.turns[k].conversation == w.turns[n].conversation && !Done(w.turns[k])
    ensures forall m :: Same(w, m, k) ==> Done(w.turns[m])
    decreases n
  {
    if m :| Same(w, m, n) && !Done(w.turns[m]) {
      k := FirstUnfinished(w, m);
    } else {
      k := n;
    }
  }

  /**
   * A lane never wedges, whoever threw before: while any turn of it is unfinished, one of them is running
   * or may start now.
   */
  lemma NeverBlocked(events: seq<Event>, n: nat)
    requires n < |After(events).turns| && !Done(After(events).turns[n])
    ensures var w := After(events);
      exists k :: 0 <= k <= n && w.turns[k].conversation == w.turns[n].conversation
        && (w.turns[k].stage.Running? || MayStart(w, k))
  {
    Reachable(events);
    var w := After(events);
    var k := FirstUnfinished(w, n);
    if w.turns[k].waitsFor.Some? { assert Same(w, w.turns[k].waitsFor.value, k); }
    assert w.turns[k].stage.Running? || MayStart(w, k);
  }
}
