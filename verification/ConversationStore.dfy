/** The backend-owned conversation store: load, merge, version-guarded put, and one retry. */
module ConversationStore {
  import opened Base
  import opened Transcript
  import RecencyIndex

  /** A row every process shares. Version 0 is a row that does not exist yet. */
  class RunStateRow<T> {
    var version: nat
    var snapshot: Option<T>

    constructor ()
      ensures version == 0 && snapshot == None
    {
      version, snapshot := 0, None;
    }

    /** Writes other clients land meanwhile, each moving the version. */
    method Interfere(writes: seq<T>)
      modifies this
      ensures version == old(version) + |writes|
      ensures snapshot == if writes == [] then old(snapshot) else Some(writes[|writes| - 1])
    {
      for i := 0 to |writes|
        invariant version == old(version) + i
        invariant snapshot == if i == 0 then old(snapshot) else Some(writes[i - 1])
      {
        version := version + 1;
        snapshot := Some(writes[i]);
      }
    }
  }

  /** One request's client: it remembers the version it last saw and sends it with the next write. */
  class RunStateClient<T> {
    const row: RunStateRow<T>
    var known: nat

    constructor (row: RunStateRow<T>)
      ensures this.row == row && known == 0
    {
      this.row := row;
      known := 0;
    }

    method Get() returns (snapshot: Option<T>)
      modifies this`known
      ensures snapshot == row.snapshot && known == row.version
    {
      known := row.version;
      snapshot := row.snapshot;
    }

    method Put(snapshot: T) returns (stale: bool)
      modifies this`known, row
      ensures stale <==> old(known) != old(row.version)
      ensures stale ==> row.version == old(row.version) && row.snapshot == old(row.snapshot) && known == old(known)
      ensures !stale ==> row.version == old(row.version) + 1 == known && row.snapshot == Some(snapshot)
    {
      if known != row.version { return true; }
      row.version := row.version + 1;
      row.snapshot := Some(snapshot);
      known := row.version;
      stale := false;
    }
  }

  /** The row as it stands after the writes, or as it was when there are none. */
  function Standing<T>(before: Option<T>, writes: seq<T>): Option<T> {
    if writes == [] then before else Some(writes[|writes| - 1])
  }

  function MergedOnto(stored: Option<ConversationView>, view: ConversationView): ConversationView {
    if stored.Some? then MergeTurns(stored.value, view) else view
  }

  /** Where a save leaves the row when `first` lands before its first put and `second` before its retry. */
  function AfterSave(
    before: Option<ConversationView>, view: ConversationView, first: seq<ConversationView>,
    second: seq<ConversationView>
  ): Option<ConversationView> {
    if first == [] then Some(MergedOnto(before, view))
    else if second == [] then Some(MergedOnto(Standing(before, first), view))
    else Standing(before, second)
  }

  lemma OntoWhatStood(before: Option<ConversationView>, view: ConversationView, first: seq<ConversationView>)
    ensures var found := if first == [] then before else Some(first[|first| - 1]);
      found.Some? ==> KeepsMerge(MergedOnto(found, view), found.value, view)
  {
    hide MergeTurns, KeepsMerge;
    var found := if first == [] then before else Some(first[|first| - 1]);
    if found.Some? { MergeKeeps(found.value, view); }
  }

  class SpringConversationStore {
    const client: RunStateClient<ConversationView>
    const indexClient: RunStateClient<seq<string>>

    constructor (client: RunStateClient<ConversationView>, indexClient: RunStateClient<seq<string>>)
      ensures this.client == client && this.indexClient == indexClient
    {
      this.client, this.indexClient := client, indexClient;
    }

    /**
     * The save fails only when other writers land in both windows, and then this save wrote nothing. Else
     * the row becomes the merge onto exactly what stood in it when the put went through, and the index is
     * touched; a raced index touch is given up without failing the save.
     */
    method Save(
      view: ConversationView, first: seq<ConversationView>, second: seq<ConversationView>, races: seq<seq<string>>)
      returns (saved: bool)
      modifies client, client.row, indexClient, indexClient.row
      ensures saved <==> first == [] || second == []
      ensures client.row.snapshot == AfterSave(old(client.row.snapshot), view, first, second)
      ensures client.row.snapshot.Some?
      ensures !saved ==> client.row.snapshot.value == second[|second| - 1]
      ensures saved ==>
        var found := if first == [] then old(client.row.snapshot) else Some(first[|first| - 1]);
        if found.None? then client.row.snapshot.value == view
        else KeepsMerge(client.row.snapshot.value, found.value, view)
      ensures indexClient.row.snapshot ==
        if !saved then old(indexClient.row.snapshot)
        else if races != [] then Some(races[|races| - 1])
        else Some(RecencyIndex.Touched(old(indexClient.row.snapshot).GetOr([]), view.conversationId))
    {
      hide MergeTurns, KeepsMerge;
      var stored := client.Get();
      client.row.Interfere(first);
      var stale := client.Put(MergedOnto(stored, view));
      if stale {
        var current := client.Get();
        client.row.Interfere(second);
        stale := client.Put(MergedOnto(current, view));
        if stale { return false; }
      }
      OntoWhatStood(old(client.row.snapshot), view, first);
      TouchIndex(view.conversationId, races);
      saved := true;
    }

    method TouchIndex(id: string, races: seq<seq<string>>)
      modifies indexClient, indexClient.row
      ensures indexClient.row.snapshot ==
        if races != [] then Some(races[|races| - 1])
        else Some(RecencyIndex.Touched(old(indexClient.row.snapshot).GetOr([]), id))
    {
      var ids := indexClient.Get();
      indexClient.row.Interfere(races);
      var _ := indexClient.Put(RecencyIndex.Touched(ids.GetOr([]), id));
    }
  }
}
