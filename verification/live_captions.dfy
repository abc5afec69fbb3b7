/**
 * The caption merge of the LiveCaptions component: a batch of transcription
 * segments is merged into a copy of the previous id -> segment map, a later
 * segment overwriting an earlier one with the same id.
 */
module LiveCaptions {

  /** One broadcast transcription segment. */
  datatype Segment = Segment(id: string, text: string, final: bool, timestamp: int)

  /** The ids occurring in a batch. */
  function Ids(batch: seq<Segment>): set<string>
  {
    if batch == [] then {} else Ids(batch[..|batch| - 1]) + {batch[|batch| - 1].id}
  }

  /** The map after storing each segment of the batch under its id, in order. */
  function Merged(prev: map<string, Segment>, batch: seq<Segment>): (r: map<string, Segment>)
    ensures batch == [] ==> r == prev
    ensures prev.Keys <= r.Keys
  {
    if batch == [] then prev
    else
      var last := batch[|batch| - 1];
      Merged(prev, batch[..|batch| - 1])[last.id := last]
  }

  /** The merge keeps every earlier key and adds exactly the batch's ids. */
  lemma {:induction false} MergedKeys(prev: map<string, Segment>, batch: seq<Segment>)
    ensures Merged(prev, batch).Keys == prev.Keys + Ids(batch)
    decreases |batch|
  {
    if batch != [] {
      MergedKeys(prev, batch[..|batch| - 1]);
    }
  }

  /** A key the batch does not mention keeps its previous segment. */
  lemma {:induction false} MergedKeepsOthers(prev: map<string, Segment>, batch: seq<Segment>, id: string)
    requires id in prev && id !in Ids(batch)
    ensures id in Merged(prev, batch) && Merged(prev, batch)[id] == prev[id]
    decreases |batch|
  {
    if batch != [] {
      MergedKeepsOthers(prev, batch[..|batch| - 1], id);
    }
  }

  /** An id maps to the last segment of the batch that carries it. */
  lemma {:induction false} MergedLastWins(prev: map<string, Segment>, batch: seq<Segment>, k: nat)
    requires k < |batch|
    requires forall j :: k < j < |batch| ==> batch[j].id != batch[k].id
    ensures batch[k].id in Merged(prev, batch) && Merged(prev, batch)[batch[k].id] == batch[k]
    decreases |batch|
  {
    if k < |batch| - 1 {
      var front := batch[..|batch| - 1];
      assert front[k] == batch[k];
      MergedLastWins(prev, front, k);
    }
  }

  /** Every id of a batch has a last occurrence in it. */
  lemma {:induction false} LastOccurrence(batch: seq<Segment>, id: string) returns (k: nat)
    requires id in Ids(batch)
    ensures k < |batch| && batch[k].id == id
    ensures forall j :: k < j < |batch| ==> batch[j].id != id
    decreases |batch|
  {
    if batch[|batch| - 1].id == id {
      k := |batch| - 1;
    } else {
      var front := batch[..|batch| - 1];
      k := LastOccurrence(front, id);
      assert front[k] == batch[k];
    }
  }

  /** Receiving the same batch twice gives the map of receiving it once. */
  lemma MergeIdempotent(prev: map<string, Segment>, batch: seq<Segment>)
    ensures Merged(Merged(prev, batch), batch) == Merged(prev, batch)
  {
    var once := Merged(prev, batch);
    var twice := Merged(once, batch);
    MergedKeys(prev, batch);
    MergedKeys(once, batch);
    forall id | id in twice
      ensures twice[id] == once[id]
    {
      if id in Ids(batch) {
        var k := LastOccurrence(batch, id);
        MergedLastWins(prev, batch, k);
        MergedLastWins(once, batch, k);
      } else {
        MergedKeepsOthers(once, batch, id);
      }
    }
  }

  /** The state updater passed to `setTranscriptions`: copy `prev`, then
      overwrite by `segment.id` in batch order. `prev` is a value and is not
      changed. */
  method UpdateTranscriptions(prev: map<string, Segment>, batch: seq<Segment>) returns (next: map<string, Segment>)
    ensures next == Merged(prev, batch)
  {
    next := prev;
    for i := 0 to |batch|
      invariant next == Merged(prev, batch[..i])
    {
      assert batch[..i + 1][..i] == batch[..i];
      next := next[batch[i].id := batch[i]];
    }
    assert batch[..|batch|] == batch;
  }
}
