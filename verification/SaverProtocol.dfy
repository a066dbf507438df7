/**
 * Any number of savers sharing one conversation row: each builds its turns on the row it read, then runs
 * load, merge, guarded put, and on a lost put one more load and put. Steps interleave freely.
 */
module SaverProtocol {
  import opened Base
  import opened Transcript

  const ID := "conversation"

  datatype Phase =
    | Composing
    | Putting(version: nat, seen: Option<ConversationView>)
    | Reloading
    | Retrying(version: nat, seen: Option<ConversationView>)
    | Saved(at: nat)
    | Lost

  /** `base` and `at` are positions in the log; only the proof reads them. */
  datatype Saver = Saver(base: nat, added: seq<TurnView>, view: ConversationView, phase: Phase)

  /** The shared row with its version (0 before the first insert), and the turns committed so far, in order. */
  datatype World = World(
    version: nat, row: Option<ConversationView>, log: seq<TurnView>, savers: map<string, Saver>, used: set<string>)

  datatype Event =
    | Begin(sid: string, added: seq<TurnView>, continuation: string)
    | Load(sid: string)
    | Put(sid: string)

  const START := World(0, None, [], map[], {})

  function RowTurns(w: World): seq<TurnView> {
    if w.row.Some? then w.row.value.turns else []
  }

  /** A new turn mints fresh turn ids; a saver loads and puts only in the phases where the code does. */
  ghost predicate Enabled(w: World, e: Event) {
    match e
    case Begin(sid, added, _) => sid !in w.savers && DistinctIds(added) && TurnIds(added) !! w.used
    case Load(sid) => sid in w.savers && (w.savers[sid].phase.Composing? || w.savers[sid].phase.Reloading?)
    case Put(sid) => sid in w.savers && (w.savers[sid].phase.Putting? || w.savers[sid].phase.Retrying?)
  }

  /** The put that succeeds: the row is still at the version this saver last read. */
  ghost predicate Commits(w: World, e: Event) {
    Enabled(w, e) && e.Put? && w.savers[e.sid].phase.version == w.version
  }

  ghost function Apply(w: World, e: Event): World {
    if !Enabled(w, e) then w
    else match e
      case Begin(sid, added, continuation) =>
        var view := ConversationView(ID, BoundedTurns(RowTurns(w) + added), continuation);
        w.(savers := w.savers[sid := Saver(|w.log|, added, view, Composing)], used := w.used + TurnIds(added))
      case Load(sid) =>
        var s := w.savers[sid];
        var phase := if s.phase.Composing? then Putting(w.version, w.row) else Retrying(w.version, w.row);
        w.(savers := w.savers[sid := s.(phase := phase)])
      case Put(sid) =>
        var s := w.savers[sid];
        if s.phase.version == w.version then
          var merged := if s.phase.seen.Some? then MergeTurns(s.phase.seen.value, s.view) else s.view;
          w.(version := w.version + 1, row := Some(merged), log := w.log + s.added,
             savers := w.savers[sid := s.(phase := Saved(|w.log|))])
        else
          w.(savers := w.savers[sid := s.(phase := if s.phase.Putting? then Reloading else Lost)])
  }

  ghost function After(events: seq<Event>): World {
    if events == [] then START else Apply(After(events[..|events| - 1]), events[|events| - 1])
  }

  /** The row holds exactly the last forty turns of the log. */
  ghost predicate RowMatchesLog(w: World) {
    RowTurns(w) == StoredFor(w.log)
  }

  ghost predicate CommitInOrder(w: World, e: Event)
    requires Commits(w, e)
  {
    InOrder(|w.log|, w.savers[e.sid].base, |w.savers[e.sid].added|)
  }

  /* ---- what every step keeps ---- */

  ghost predicate SaverOk(w: World, s: Saver) {
    && s.base <= |w.log|
    && DistinctIds(s.added)
    && TurnIds(s.added) <= w.used
    && (if s.phase.Saved? then s.phase.at + |s.added| <= |w.log| && w.log[s.phase.at..s.phase.at + |s.added|] == s.added
        else TurnIds(s.added) !! TurnIds(w.log))
    && (s.phase.Putting? || s.phase.Retrying? ==>
        s.phase.version <= w.version && (s.phase.version == w.version ==> s.phase.seen == w.row))
  }

  ghost predicate Inv(w: World) {
    && DistinctIds(w.log)
    && TurnIds(w.log) <= w.used
    && (w.row.None? ==> w.log == [])
    && (forall sid :: sid in w.savers ==> SaverOk(w, w.savers[sid]))
    && (forall a, b :: a in w.savers && b in w.savers && a != b ==>
         TurnIds(w.savers[a].added) !! TurnIds(w.savers[b].added))
  }

  /** Additionally true until a commit lands out of order: every view was built on a prefix of the log. */
  ghost predicate Faithful(w: World) {
    && RowMatchesLog(w)
    && (forall sid :: sid in w.savers && w.savers[sid].base <= |w.log| ==>
        w.savers[sid].view.turns == ViewFor(w.log, w.savers[sid].base, w.savers[sid].added))
  }

  lemma ConcatIds(a: seq<TurnView>, b: seq<TurnView>)
    ensures TurnIds(a + b) == TurnIds(a) + TurnIds(b)
    ensures DistinctIds(a) && DistinctIds(b) && TurnIds(a) !! TurnIds(b) ==> DistinctIds(a + b)
  {
    forall i | 0 <= i < |a| ensures a[i].turnId in TurnIds(a + b) { assert (a + b)[i] == a[i]; }
    forall j | 0 <= j < |b| ensures b[j].turnId in TurnIds(a + b) { assert (a + b)[|a| + j] == b[j]; }
    if DistinctIds(a) && DistinctIds(b) && TurnIds(a) !! TurnIds(b) {
      forall i, j | 0 <= i < j < |a + b| ensures (a + b)[i].turnId != (a + b)[j].turnId {
        if i < |a| <= j { assert a[i].turnId in TurnIds(a) && b[j - |a|].turnId in TurnIds(b); }
      }
    }
  }

  lemma CommitKeepsInv(w: World, e: Event)
    requires Inv(w) && Commits(w, e)
    ensures Inv(Apply(w, e))
  {
    var s := w.savers[e.sid];
    var w' := Apply(w, e);
    ConcatIds(w.log, s.added);
    forall sid | sid in w'.savers ensures SaverOk(w', w'.savers[sid]) {
      assert SaverOk(w, w.savers[sid]);
      if sid != e.sid && w.savers[sid].phase.Saved? {
        var at, n := w.savers[sid].phase.at, |w.savers[sid].added|;
        assert w'.log[at..at + n] == w.log[at..at + n];
      }
    }
  }

  lemma StepKeepsInv(w: World, e: Event)
    requires Inv(w)
    ensures Inv(Apply(w, e))
  {
    if Commits(w, e) {
      CommitKeepsInv(w, e);
    } else {
      var w' := Apply(w, e);
      forall sid | sid in w'.savers ensures SaverOk(w', w'.savers[sid]) {
        if sid in w.savers { assert SaverOk(w, w.savers[sid]); }
      }
    }
  }

  lemma {:induction false} Reachable(events: seq<Event>)
    ensures Inv(After(events))
  {
    if events != [] {
      Reachable(events[..|events| - 1]);
      StepKeepsInv(After(events[..|events| - 1]), events[|events| - 1]);
    }
  }

  /** A faithful row stays so across every step but a commit, and across a commit exactly when it is in order. */
  lemma StepFaithful(w: World, e: Event)
    requires Inv(w) && Faithful(w)
    ensures !Commits(w, e) ==> Faithful(Apply(w, e))
    ensures Commits(w, e) ==> (RowMatchesLog(Apply(w, e)) <==> CommitInOrder(w, e))
    ensures Commits(w, e) && CommitInOrder(w, e) ==> Faithful(Apply(w, e))
  {
    hide Merged, InOrder, BoundedTurns, StoredFor, TurnIds;
    var w' := Apply(w, e);
    if Commits(w, e) {
      var s := w.savers[e.sid];
      assert SaverOk(w, s);
      CommitRow(w, e);
      forall sid | sid in w'.savers && w'.savers[sid].base <= |w'.log|
        ensures w'.savers[sid].view.turns == ViewFor(w'.log, w'.savers[sid].base, w'.savers[sid].added)
      {
        assert SaverOk(w, w.savers[sid]);
        assert w'.log[..w.savers[sid].base] == w.log[..w.savers[sid].base];
      }
    } else if Enabled(w, e) && e.Begin? {
      BeginView(w, e);
    }
  }

  lemma BeginView(w: World, e: Event)
    requires Inv(w) && Faithful(w) && Enabled(w, e) && e.Begin?
    ensures Apply(w, e).savers[e.sid].view.turns == ViewFor(w.log, |w.log|, e.added)
  {
    assert w.log[..|w.log|] == w.log;
  }

  lemma CommitRow(w: World, e: Event)
    requires Inv(w) && Faithful(w) && Commits(w, e)
    ensures RowMatchesLog(Apply(w, e)) <==> CommitInOrder(w, e)
  {
    hide InOrder, Unseen, OldestKept, Resurrected;
    var s := w.savers[e.sid];
    assert SaverOk(w, s) && s.phase.seen == w.row;
    ConcatIds(w.log, s.added);
    MergeExact(w.log, s.base, s.added);
    if w.row.None? {
      assert w.log == [] && s.base == 0;
      assert InOrder(0, 0, |s.added|) by { FirstSaveInOrder(|s.added|); }
      FirstView(s.added);
    }
  }

  lemma FirstSaveInOrder(adds: nat)
    ensures InOrder(0, 0, adds)
  {
  }

  lemma FirstView(added: seq<TurnView>)
    ensures ViewFor([], 0, added) == BoundedTurns([] + added)
  {
    assert BoundedTurns([]) == [];
  }

  lemma AfterStep(events: seq<Event>, k: nat)
    requires k < |events|
    ensures After(events[..k + 1]) == Apply(After(events[..k]), events[k])
  {
    assert events[..k + 1][..k] == events[..k];
  }

  lemma FaithfulMatches(w: World)
    requires Faithful(w)
    ensures RowMatchesLog(w)
  {
  }

  /** The row matched the log at each of the first `n + 1` moments. */
  ghost predicate MatchedThrough(events: seq<Event>, n: nat)
    requires n <= |events|
  {
    forall k | 0 <= k <= n :: RowMatchesLog(After(events[..k]))
  }

  /** Every commit among the first `n` events was in order when it landed. */
  ghost predicate InOrderThrough(events: seq<Event>, n: nat)
    requires n <= |events|
  {
    forall k | 0 <= k < n && Commits(After(events[..k]), events[k]) :: CommitInOrder(After(events[..k]), events[k])
  }

  lemma {:induction false} FaithfulThrough(events: seq<Event>, n: nat)
    requires n <= |events|
    ensures MatchedThrough(events, n) || InOrderThrough(events, n) ==> Faithful(After(events[..n]))
  {
    hide Apply, Commits, CommitInOrder, RowMatchesLog, Inv;
    if n == 0 {
      StartFaithful();
      assert events[..0] == [];
    } else if MatchedThrough(events, n) || InOrderThrough(events, n) {
      FaithfulThrough(events, n - 1);
      Reachable(events[..n - 1]);
      AfterStep(events, n - 1);
      StepFaithful(After(events[..n - 1]), events[n - 1]);
    }
  }

  lemma StartFaithful()
    ensures Faithful(START)
  {
    assert BoundedTurns([]) == [];
  }

  /**
   * Main result, over every interleaving. The row shows the last forty committed turns, in commit order,
   * at every moment, if and only if every commit was in order at the moment it landed.
   */
  lemma Linearizable(events: seq<Event>)
    ensures MatchedThrough(events, |events|) <==> InOrderThrough(events, |events|)
  {
    hide Apply, Commits, CommitInOrder, RowMatchesLog, Inv, Faithful;
    if MatchedThrough(events, |events|) {
      forall k | 0 <= k < |events| && Commits(After(events[..k]), events[k])
        ensures CommitInOrder(After(events[..k]), events[k])
      {
        FaithfulThrough(events, k);
        Reachable(events[..k]);
        AfterStep(events, k);
        StepFaithful(After(events[..k]), events[k]);
        assert RowMatchesLog(After(events[..k + 1]));
      }
    }
    if InOrderThrough(events, |events|) {
      forall k | 0 <= k <= |events| ensures RowMatchesLog(After(events[..k])) {
        FaithfulThrough(events, k);
        FaithfulMatches(After(events[..k]));
      }
    }
  }

  lemma {:induction false} LogGrows(events: seq<Event>, k: nat)
    requires k <= |events|
    ensures IsPrefix(After(events[..k]).log, After(events).log)
  {
    if k == |events| {
      assert events[..k] == events;
    } else {
      var front := events[..|events| - 1];
      LogGrows(front, k);
      assert front[..k] == events[..k];
    }
  }

  lemma ShortLogMatches(events: seq<Event>, k: nat)
    requires k <= |events| && |After(events).log| <= MAX_TURNS_PERSISTED
    ensures RowMatchesLog(After(events[..k]))
  {
    hide Apply, After, Commits;
    forall j | 0 <= j < |events| && Commits(After(events[..j]), events[j])
      ensures CommitInOrder(After(events[..j]), events[j])
    {
      LogGrows(events, j);
    }
    Linearizable(events);
  }

  lemma WholeLogShown(w: World)
    requires Inv(w) && RowMatchesLog(w) && |w.log| <= MAX_TURNS_PERSISTED
    ensures RowTurns(w) == Persisted(w.log) && DistinctIds(RowTurns(w))
    ensures forall sid :: sid in w.savers ==>
      if w.savers[sid].phase.Saved? then TurnIds(w.savers[sid].added) <= TurnIds(RowTurns(w))
      else TurnIds(w.savers[sid].added) !! TurnIds(RowTurns(w))
  {
    PersistedAgain(w.log);
    forall sid | sid in w.savers
      ensures if w.savers[sid].phase.Saved? then TurnIds(w.savers[sid].added) <= TurnIds(w.log)
              else TurnIds(w.savers[sid].added) !! TurnIds(w.log)
    {
      var s := w.savers[sid];
      assert SaverOk(w, s);
      if s.phase.Saved? { SubIds(w.log, s.phase.at, s.phase.at + |s.added|); }
    }
  }

  /**
   * While at most forty turns have been committed: each stored transcript is a prefix of every later one,
   * repeats no turn id, holds every turn of every save that returned, and no turn of a save that failed.
   */
  lemma BelowTheBound(events: seq<Event>, k: nat)
    requires k <= |events| && |After(events).log| <= MAX_TURNS_PERSISTED
    ensures IsPrefix(RowTurns(After(events[..k])), RowTurns(After(events)))
    ensures DistinctIds(RowTurns(After(events)))
    ensures var w := After(events);
      forall sid :: sid in w.savers ==>
        if w.savers[sid].phase.Saved? then TurnIds(w.savers[sid].added) <= TurnIds(RowTurns(w))
        else TurnIds(w.savers[sid].added) !! TurnIds(RowTurns(w))
  {
    hide Apply, After, Inv;
    assert events[..|events|] == events;
    ShortLogMatches(events, k);
    ShortLogMatches(events, |events|);
    LogGrows(events, k);
    Reachable(events);
    WholeLogShown(After(events));
  }

  /** One at a time: a process that starts a turn only after the last one was saved never loses order, at any length. */
  lemma SerialisedSavesNeverReorder(events: seq<Event>)
    requires forall k | 0 <= k < |events| && Commits(After(events[..k]), events[k]) ::
      After(events[..k]).savers[events[k].sid].base == |After(events[..k]).log|
    ensures RowMatchesLog(After(events))
  {
    Linearizable(events);
    assert RowMatchesLog(After(events[..|events|]));
    assert events[..|events|] == events;
  }
}
