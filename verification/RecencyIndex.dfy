/** The bounded list of recent conversations: one shared row, touched after every save. */
module RecencyIndex {
  import opened Base

  const INDEX_MAX := 50

  function Without(ids: seq<string>, id: string): seq<string> {
    if ids == [] then []
    else Without(ids[..|ids| - 1], id) + if ids[|ids| - 1] == id then [] else [ids[|ids| - 1]]
  }

  function MoveToFront(ids: seq<string>, id: string): seq<string> {
    [id] + Without(ids, id)
  }

  /** What one touch writes over the ids it read. */
  function Touched(ids: seq<string>, id: string): seq<string> {
    First(MoveToFront(ids, id), INDEX_MAX)
  }

  function Index(touches: seq<string>): seq<string> {
    if touches == [] then [] else Touched(Index(touches[..|touches| - 1]), touches[|touches| - 1])
  }

  /** The list nobody cuts: every id ever touched, last touched first. */
  function Unbounded(touches: seq<string>): seq<string> {
    if touches == [] then [] else MoveToFront(Unbounded(touches[..|touches| - 1]), touches[|touches| - 1])
  }

  /** When `id` was last touched, or -1. */
  function LastTouch(touches: seq<string>, id: string): (at: int)
    ensures -1 <= at < |touches|
    ensures at >= 0 ==> touches[at] == id
  {
    if touches == [] then -1
    else if touches[|touches| - 1] == id then |touches| - 1
    else LastTouch(touches[..|touches| - 1], id)
  }

  lemma {:induction false} WithoutConcat(a: seq<string>, b: seq<string>, id: string)
    ensures Without(a + b, id) == Without(a, id) + Without(b, id)
    decreases |b|
  {
    if b == [] {
      assert a + b == a;
    } else {
      assert (a + b)[..|a + b| - 1] == a + b[..|b| - 1];
      WithoutConcat(a, b[..|b| - 1], id);
    }
  }

  /** Removing one id keeps the rest in order, without repeats. */
  lemma {:induction false} WithoutShape(ids: seq<string>, id: string)
    requires NoRepeat(ids)
    ensures |ids| - 1 <= |Without(ids, id)| <= |ids|
    ensures NoRepeat(Without(ids, id))
    ensures forall x :: x in Without(ids, id) <==> x in ids && x != id
    ensures id !in ids ==> Without(ids, id) == ids
  {
    if ids != [] {
      var front := ids[..|ids| - 1];
      assert ids == front + [ids[|ids| - 1]];
      WithoutShape(front, id);
      assert ids[|ids| - 1] !in front;
    }
  }

  /** Cutting before or after a touch leaves the same first fifty. */
  lemma TouchOfFirst(ids: seq<string>, id: string)
    requires NoRepeat(ids)
    ensures Touched(First(ids, INDEX_MAX), id) == First(MoveToFront(ids, id), INDEX_MAX)
  {
    if |ids| > INDEX_MAX {
      var head, tail := ids[..INDEX_MAX], ids[INDEX_MAX..];
      assert ids == head + tail;
      WithoutConcat(head, tail, id);
      WithoutShape(head, id);
      assert MoveToFront(ids, id) == ([id] + Without(head, id)) + Without(tail, id);
    }
  }

  ghost predicate NewestFirst(ids: seq<string>, touches: seq<string>) {
    forall i, j :: 0 <= i < j < |ids| ==> LastTouch(touches, ids[i]) > LastTouch(touches, ids[j])
  }

  /** Every touched id once, ordered by its last touch. */
  ghost predicate ByLastTouch(ids: seq<string>, touches: seq<string>) {
    NoRepeat(ids) && (forall x :: x in ids <==> x in touches) && NewestFirst(ids, touches)
  }

  lemma {:induction false} OrderedWithout(ids: seq<string>, touches: seq<string>, id: string)
    requires NewestFirst(ids, touches)
    ensures NewestFirst(Without(ids, id), touches)
    ensures forall x :: x in Without(ids, id) ==> x in ids
  {
    if ids != [] {
      var front, last := ids[..|ids| - 1], ids[|ids| - 1];
      OrderedWithout(front, touches, id);
      var rest := Without(front, id);
      forall i | 0 <= i < |rest| ensures LastTouch(touches, rest[i]) > LastTouch(touches, last) {
        assert rest[i] in front;
        var k :| 0 <= k < |front| && front[k] == rest[i];
        assert ids[k] == rest[i] && ids[|ids| - 1] == last;
      }
      assert NewestFirst(rest + [last], touches);
    }
  }

  lemma {:induction false} UnboundedByLastTouch(touches: seq<string>)
    ensures ByLastTouch(Unbounded(touches), touches)
  {
    hide ByLastTouch, MoveToFront;
    if touches == [] {
      NothingTouched();
    } else {
      var front, id := touches[..|touches| - 1], touches[|touches| - 1];
      UnboundedByLastTouch(front);
      TouchKeepsOrder(Unbounded(front), front, id);
      assert front + [id] == touches;
    }
  }

  lemma NothingTouched()
    ensures ByLastTouch([], [])
  {
  }

  lemma TouchKeepsOrder(ids: seq<string>, front: seq<string>, id: string)
    requires ByLastTouch(ids, front)
    ensures ByLastTouch(MoveToFront(ids, id), front + [id])
  {
    hide NewestFirst, LastTouch;
    WithoutShape(ids, id);
    OrderedWithout(ids, front, id);
    var rest := Without(ids, id);
    NewestInFront(rest, front, id);
    RepeatFree(rest, id);
    hide Without, NoRepeat;
    assert forall x :: x in [id] + rest <==> x == id || x in rest;
    assert forall x :: x in front + [id] <==> x in front || x == id;
  }

  lemma RepeatFree(rest: seq<string>, id: string)
    requires NoRepeat(rest) && id !in rest
    ensures NoRepeat([id] + rest)
  {
  }

  /** What was just touched comes first, and the others keep their order. */
  lemma NewestInFront(rest: seq<string>, front: seq<string>, id: string)
    requires NewestFirst(rest, front) && id !in rest && forall x :: x in rest ==> x in front
    ensures NewestFirst([id] + rest, front + [id])
  {
    var touches, ids := front + [id], [id] + rest;
    assert touches[..|front|] == front;
    forall i, j | 0 <= i < j < |ids| ensures LastTouch(touches, ids[i]) > LastTouch(touches, ids[j]) {
      assert ids[j] == rest[j - 1] && rest[j - 1] in rest;
      if i > 0 { assert ids[i] == rest[i - 1] && rest[i - 1] in rest; }
    }
  }

  /**
   * After any sequence of successful touches the index is the first fifty ids of the uncut list: the ids
   * touched most recently, each once, newest first.
   */
  lemma {:induction false} IndexIsMostRecent(touches: seq<string>)
    ensures Index(touches) == First(Unbounded(touches), 50)
    ensures ByLastTouch(Unbounded(touches), touches)
  {
    UnboundedByLastTouch(touches);
    if touches != [] {
      IndexIsMostRecent(touches[..|touches| - 1]);
      TouchOfFirst(Unbounded(touches[..|touches| - 1]), touches[|touches| - 1]);
    }
  }

  /* ---- touches racing on one row ---- */

  datatype Toucher = Toucher(id: string, version: nat, seen: seq<string>, done: bool)

  datatype World = World(version: nat, ids: seq<string>, touches: seq<string>, touchers: map<string, Toucher>)

  datatype Event = Read(who: string, id: string) | Put(who: string)

  const START := World(0, [], [], map[])

  /** A put over a row that moved is refused and the touch is given up. */
  function Apply(w: World, e: Event): World {
    match e
    case Read(who, id) =>
      if who in w.touchers then w else w.(touchers := w.touchers[who := Toucher(id, w.version, w.ids, false)])
    case Put(who) =>
      if who !in w.touchers || w.touchers[who].done then w
      else
        var t := w.touchers[who];
        var w' := w.(touchers := w.touchers[who := t.(done := true)]);
        if t.version != w.version then w'
        else w'.(version := w.version + 1, ids := Touched(t.seen, t.id), touches := w.touches + [t.id])
  }

  function After(events: seq<Event>): World {
    if events == [] then START else Apply(After(events[..|events| - 1]), events[|events| - 1])
  }

  ghost predicate Inv(w: World) {
    && w.ids == Index(w.touches)
    && forall who :: who in w.touchers ==>
         w.touchers[who].version <= w.version
           && (w.touchers[who].version == w.version ==> w.touchers[who].seen == w.ids)
  }

  lemma {:induction false} RaceInv(events: seq<Event>)
    ensures Inv(After(events))
  {
    if events != [] {
      RaceInv(events[..|events| - 1]);
      var w, e := After(events[..|events| - 1]), events[|events| - 1];
      if e.Put? && e.who in w.touchers {
        var id := w.touchers[e.who].id;
        assert (w.touches + [id])[..|w.touches + [id]| - 1] == w.touches;
      }
    }
  }

  /** Racing touches are as good as the successful ones run one after another. */
  lemma RacingTouches(events: seq<Event>)
    ensures var w := After(events);
      w.ids == First(Unbounded(w.touches), 50) && |w.ids| <= 50 && NoRepeat(w.ids)
  {
    RaceInv(events);
    IndexIsMostRecent(After(events).touches);
  }
}
