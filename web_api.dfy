/**
 * The search API (main.py): at start-up the collection `n8n_workflows_web`
 * is populated from the corpus when it is empty, with each workflow's name
 * as its document and the store computing the vectors; `POST /search`
 * returns the metadatas of the five best-ranked workflows and `GET /`
 * returns a fixed status.
 */
module WebApi {
  import opened Text
  import opened Batching
  import opened Collaborators
  import opened Loading

  const ResultCount := 5
  const OnlineStatus := "AI search API is online"

  /** The body of `POST /search`: `{"workflows": [...]}`. */
  datatype SearchResponse = SearchResponse(workflows: seq<Metadata>)

  /** The body of `GET /`: `{"status": ...}`. */
  datatype StatusResponse = StatusResponse(status: string)

  /** `[item['name'] for item in all_data]`: only the name is indexed. */
  function Names(data: seq<Metadata>): (r: seq<string>)
    ensures |r| == |data| && forall i :: 0 <= i < |data| ==> r[i] == data[i].name
  {
    seq(|data|, i requires 0 <= i < |data| => data[i].name)
  }

  /** No vectors are passed to `add`: the store computes all of them. */
  function StoreVectors(n: nat): (r: seq<Embedding>)
    ensures |r| == n && forall i :: 0 <= i < n ==> r[i] == StoreComputed
  {
    seq(n, i requires 0 <= i < n => StoreComputed)
  }

  /**
   * The start-up block: when the collection is empty, add the names, the
   * raw records and the ids `str(i)` in 1000-row slices; otherwise leave
   * the collection as it is.
   */
  method PopulateIfEmpty(collection: Collection, allData: seq<Metadata>)
    modifies collection
    ensures old(collection.Count()) != 0 ==>
      collection.entries == old(collection.entries) && collection.addLog == old(collection.addLog)
    ensures old(collection.Count()) == 0 ==>
      && collection.entries == Loaded(Ids(|allData|), Names(allData), allData, StoreVectors(|allData|))
      && collection.addLog == old(collection.addLog) + Batches(Ids(|allData|))
  {
    if collection.Count() == 0 {
      assert collection.entries == map[];
      var documents := Names(allData);
      var metadatas := allData;
      var ids := Ids(|allData|);
      AddAll(collection, documents, metadatas, ids);
    }
  }

  /** The `for i in range(0, len(documents), 1000)` loop of `add` calls. */
  method AddAll(collection: Collection, documents: seq<string>, metadatas: seq<Metadata>, ids: seq<string>)
    requires |ids| == |documents| == |metadatas| && Distinct(ids)
    modifies collection
    ensures collection.entries == Inserted(old(collection.entries), Items(ids, documents, metadatas, StoreVectors(|ids|)))
    ensures collection.addLog == old(collection.addLog) + Batches(ids)
  {
    ghost var start, log := collection.entries, collection.addLog;
    var i := 0;
    ghost var b := 0;
    while i < |documents|
      invariant i == b * BatchSize
      invariant b == 0 || (b - 1) * BatchSize < |documents|
      invariant b <= |Batches(ids)|
      invariant HoldsFirst(collection.entries, start, Items(ids, documents, metadatas, StoreVectors(|ids|)), i)
      invariant collection.addLog == log + Batches(ids)[..b]
      decreases |documents| - i
    {
      AddSlice(collection, documents, metadatas, ids, i, b, start, log);
      i := i + BatchSize;
      b := b + 1;
    }
    BatchesUpTo(ids, b);
    ghost var items := Items(ids, documents, metadatas, StoreVectors(|ids|));
    assert items[..|ids|] == items;
    assert Batches(ids)[..b] == Batches(ids);
  }

  /**
   * `collection.add(documents=documents[i:i+1000], metadatas=..., ids=...)`,
   * for the slice at `i`, the start of batch `b`: the collection that held
   * the rows before `i` (on top of `start`) now holds those before `i + 1000`.
   */
  method AddSlice(collection: Collection, documents: seq<string>, metadatas: seq<Metadata>, ids: seq<string>,
                  i: nat, ghost b: nat, ghost start: map<string, Entry>, ghost log: seq<seq<string>>)
    requires |ids| == |documents| == |metadatas| && Distinct(ids) && i < |ids| && i == b * BatchSize
    requires b <= |Batches(ids)|
    requires HoldsFirst(collection.entries, start, Items(ids, documents, metadatas, StoreVectors(|ids|)), i)
    requires collection.addLog == log + Batches(ids)[..b]
    modifies collection
    ensures b + 1 <= |Batches(ids)|
    ensures HoldsFirst(collection.entries, start, Items(ids, documents, metadatas, StoreVectors(|ids|)), i + BatchSize)
    ensures collection.addLog == log + Batches(ids)[..b + 1]
  {
    DistinctSlice(ids, i);
    assert Slice(StoreVectors(|ids|), i) == StoreVectors(|Slice(ids, i)|);
    collection.Add(Slice(ids, i), Slice(documents, i), Slice(metadatas, i), StoreVectors(|Slice(ids, i)|));
    BatchStep(start, ids, documents, metadatas, StoreVectors(|ids|), i);
    LogStep(log, ids, b);
  }

  /**
   * After populating an empty collection it holds one entry per record and
   * nothing else: record `i` under `str(i)`, with the workflow's name as
   * its document and the record itself, nodes not flattened, as metadata.
   */
  lemma PopulatedCollection(allData: seq<Metadata>)
    ensures |Loaded(Ids(|allData|), Names(allData), allData, StoreVectors(|allData|))| == |allData|
    ensures forall id :: id in Loaded(Ids(|allData|), Names(allData), allData, StoreVectors(|allData|)) <==> id in Ids(|allData|)
    ensures forall i :: 0 <= i < |allData| ==>
      NatToString(i) in Loaded(Ids(|allData|), Names(allData), allData, StoreVectors(|allData|)) &&
      Loaded(Ids(|allData|), Names(allData), allData, StoreVectors(|allData|))[NatToString(i)]
        == Entry(allData[i].name, allData[i], StoreComputed)
  {
    LoadedKeys(Names(allData), allData, StoreVectors(|allData|));
    LoadedRows(Names(allData), allData, StoreVectors(|allData|));
  }

  /**
   * `POST /search`: the metadatas of the `min(5, count())` best-ranked
   * stored workflows, in ranking order, as stored and unfiltered.
   */
  function SearchWorkflows(collection: Collection, question: string, rank: string -> seq<string>): (r: SearchResponse)
    reads collection
    requires IsRanking(rank(question), collection.entries)
    ensures |r.workflows| == Min(ResultCount, collection.Count())
    ensures forall k :: 0 <= k < |r.workflows| ==>
      k < |rank(question)| && rank(question)[k] in collection.entries && r.workflows[k] == collection.entries[rank(question)[k]].metadata
  {
    SearchResponse(collection.Query(question, ResultCount, rank))
  }

  /** `GET /`: the fixed status object. */
  function ReadRoot(): (r: StatusResponse)
    ensures r.status == OnlineStatus
  {
    StatusResponse(OnlineStatus)
  }
}
