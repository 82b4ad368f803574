/**
 * The external services the pipeline talks to, reduced to the state and
 * the behaviour the pipeline relies on:
 *  - a vector-store collection: a map from id to (document, metadata,
 *    vector), with `count`, `add` and `query`;
 *  - an embedding service: one vector per input text, in input order;
 *  - a chat-completion service: one reply text per request.
 * Nearest-neighbour ranking is not modelled: a query is given the engine's
 * ranking of the stored ids as a parameter.
 */
module Collaborators {
  import opened Batching

  type Vector = seq<real>

  /** The `nodes` value of a stored record: still a list, or already a string. */
  datatype NodesValue = NodeList(names: seq<string>) | NodeText(text: string)

  /** A workflow record as read back from one corpus line and stored as an entry's metadata. */
  datatype Metadata = Metadata(sourceFile: string, name: string, description: string, nodes: NodesValue)

  /** The vector of an entry: passed to `add` by the caller, or computed by the store's own embedding function. */
  datatype Embedding = Supplied(vector: Vector) | StoreComputed

  datatype Entry = Entry(document: string, metadata: Metadata, embedding: Embedding)

  /** One call to the embedding service. */
  datatype EmbeddingRequest = EmbeddingRequest(model: string, input: seq<string>)

  /** One message of a chat request: a role (`system`, `user`) and its text. */
  datatype ChatMessage = ChatMessage(role: string, content: string)

  /** One call to the chat-completion service. */
  datatype ChatRequest = ChatRequest(model: string, messages: seq<ChatMessage>, temperature: real)

  predicate Distinct<T(==)>(s: seq<T>) {
    forall i, j :: 0 <= i < j < |s| ==> s[i] != s[j]
  }

  /** One `(id, document, metadata, vector)` row of an `add` call. */
  datatype Item = Item(id: string, entry: Entry)

  /** The rows of an `add` call made from its parallel sequences. */
  function Items(ids: seq<string>, docs: seq<string>, metas: seq<Metadata>, embs: seq<Embedding>): (r: seq<Item>)
    requires |ids| == |docs| == |metas| == |embs|
    ensures |r| == |ids|
    ensures forall k :: 0 <= k < |r| ==> r[k] == Item(ids[k], Entry(docs[k], metas[k], embs[k]))
  {
    seq(|ids|, k requires 0 <= k < |ids| => Item(ids[k], Entry(docs[k], metas[k], embs[k])))
  }

  /** The rows of consecutive `add` calls are the rows of the concatenated sequences. */
  lemma ItemsAppend(ids1: seq<string>, docs1: seq<string>, metas1: seq<Metadata>, embs1: seq<Embedding>,
                    ids2: seq<string>, docs2: seq<string>, metas2: seq<Metadata>, embs2: seq<Embedding>)
    requires |ids1| == |docs1| == |metas1| == |embs1|
    requires |ids2| == |docs2| == |metas2| == |embs2|
    ensures Items(ids1, docs1, metas1, embs1) + Items(ids2, docs2, metas2, embs2)
         == Items(ids1 + ids2, docs1 + docs2, metas1 + metas2, embs1 + embs2)
  {
  }

  /**
   * The entries after adding `items` to `m`, one row after the other. A row
   * whose id is already present is skipped: the stored entry stays.
   */
  function Inserted(m: map<string, Entry>, items: seq<Item>): map<string, Entry>
    decreases |items|
  {
    if items == [] then m
    else
      var prev := Inserted(m, items[..|items| - 1]);
      var last := items[|items| - 1];
      if last.id in prev then prev else prev[last.id := last.entry]
  }

  /** Adding two batches one after the other is adding their concatenation. */
  lemma {:induction false} InsertedAppend(m: map<string, Entry>, a: seq<Item>, b: seq<Item>)
    ensures Inserted(Inserted(m, a), b) == Inserted(m, a + b)
    decreases |b|
  {
    if b == [] {
      assert a + b == a;
    } else {
      var n := |b| - 1;
      InsertedAppend(m, a, b[..n]);
      assert (a + b)[..|a + b| - 1] == a + b[..n];
    }
  }

  /** The ids of rows are pairwise different. */
  predicate DistinctIds(items: seq<Item>) {
    forall i, j :: 0 <= i < j < |items| ==> items[i].id != items[j].id
  }

  /** `id` is the id of some row. */
  predicate HasId(items: seq<Item>, id: string) {
    exists k :: 0 <= k < |items| && items[k].id == id
  }

  /** Adding rows never removes an id; the ids after adding are the old ones and those of the rows. */
  lemma {:induction false} InsertedKeys(m: map<string, Entry>, items: seq<Item>)
    ensures forall id :: id in Inserted(m, items) <==> id in m || HasId(items, id)
    decreases |items|
  {
    if items != [] {
      var n := |items| - 1;
      var front := items[..n];
      InsertedKeys(m, front);
      forall id ensures HasId(items, id) <==> HasId(front, id) || id == items[n].id {
        if HasId(front, id) {
          var j :| 0 <= j < n && front[j].id == id;
          assert items[j].id == id;
        }
        if HasId(items, id) && id != items[n].id {
          var j :| 0 <= j < |items| && items[j].id == id;
          assert front[j].id == id;
        }
      }
    }
  }

  /**
   * Adding rows with distinct new ids to `m` keeps every entry of `m` and
   * stores each row's entry under its id, so the size grows by the number
   * of rows.
   */
  lemma {:induction false} InsertedContents(m: map<string, Entry>, items: seq<Item>)
    requires DistinctIds(items) && forall k :: 0 <= k < |items| ==> items[k].id !in m
    ensures forall id :: id in m ==> id in Inserted(m, items) && Inserted(m, items)[id] == m[id]
    ensures forall k :: 0 <= k < |items| ==> items[k].id in Inserted(m, items) && Inserted(m, items)[items[k].id] == items[k].entry
    ensures |Inserted(m, items)| == |m| + |items|
    decreases |items|
  {
    if items != [] {
      var n := |items| - 1;
      var front := items[..n];
      InsertedContents(m, front);
      var prev := Inserted(m, front);
      var last := items[n];
      InsertedKeys(m, front);
      assert last.id !in prev;
      assert Inserted(m, items) == prev[last.id := last.entry];
      forall k | 0 <= k < n
        ensures items[k].id in Inserted(m, items) && Inserted(m, items)[items[k].id] == items[k].entry
      {
        assert front[k] == items[k];
      }
    }
  }

  /** A distinct sequence that holds exactly the elements of `S` has `|S|` elements. */
  lemma {:induction false} DistinctCard<T>(s: seq<T>, S: set<T>)
    requires Distinct(s) && forall x :: x in s <==> x in S
    ensures |s| == |S|
  {
    if s != [] {
      var n := |s| - 1;
      var x := s[n];
      forall y ensures y in s[..n] <==> y in S - {x} {
        if y in s[..n] {
          var j :| 0 <= j < n && s[..n][j] == y;
          assert s[j] == y;
        }
        if y in S - {x} {
          var j :| 0 <= j < |s| && s[j] == y;
          assert s[..n][j] == y;
        }
      }
      DistinctCard(s[..n], S - {x});
    }
  }

  /** `order` lists every stored id once: the shape of the engine's ranking for a query. */
  ghost predicate IsRanking(order: seq<string>, entries: map<string, Entry>) {
    Distinct(order) && forall id :: id in order <==> id in entries
  }

  /** A vector-store collection, as `get_or_create_collection` returns it. */
  class Collection {
    const name: string
    /** The stored entries, by id. */
    var entries: map<string, Entry>
    /** The ids passed to each `add` call so far, in order. */
    var addLog: seq<seq<string>>

    constructor (name: string)
      ensures this.name == name && entries == map[] && addLog == []
    {
      this.name := name;
      entries := map[];
      addLog := [];
    }

    /** `count()`: the number of stored entries. */
    function Count(): nat
      reads this
    {
      |entries|
    }

    /**
     * `add(ids=..., documents=..., metadatas=..., embeddings=...)`. The
     * store demands parallel sequences of equal length without a repeated
     * id; an id that is already stored is left as it is.
     */
    method Add(ids: seq<string>, docs: seq<string>, metas: seq<Metadata>, embs: seq<Embedding>)
      requires |ids| == |docs| == |metas| == |embs|
      requires Distinct(ids)
      modifies this
      ensures entries == Inserted(old(entries), Items(ids, docs, metas, embs))
      ensures addLog == old(addLog) + [ids]
    {
      entries := Inserted(entries, Items(ids, docs, metas, embs));
      addLog := addLog + [ids];
    }

    /**
     * `query(query_texts=[question], n_results=n)['metadatas'][0]`, where
     * `rank(question)` is the engine's ranking of all stored ids, most
     * similar first. The result holds min(n, count()) metadatas, in ranking
     * order, each of a different stored entry.
     */
    function Query(question: string, nResults: nat, rank: string -> seq<string>): (r: seq<Metadata>)
      reads this
      requires IsRanking(rank(question), entries)
      ensures |r| == Min(nResults, Count()) && |r| <= |rank(question)|
      ensures forall k :: 0 <= k < |r| ==> rank(question)[k] in entries && r[k] == entries[rank(question)[k]].metadata
    {
      var order := rank(question);
      var es := entries;
      DistinctCard(order, es.Keys);
      seq(Min(nResults, |order|), k requires 0 <= k < Min(nResults, |order|) => es[order[k]].metadata)
    }
  }

  /** The embedding service: maps each input text to its vector with the fixed function `embed`. */
  class EmbeddingClient {
    const embed: string -> Vector
    /** The calls made so far, in order. */
    var requests: seq<EmbeddingRequest>

    constructor (embed: string -> Vector)
      ensures this.embed == embed && requests == []
    {
      this.embed := embed;
      requests := [];
    }

    /** `embeddings.create(input=..., model=...)`: one vector per input, in input order. */
    method Create(input: seq<string>, model: string) returns (vectors: seq<Vector>)
      modifies this
      ensures requests == old(requests) + [EmbeddingRequest(model, input)]
      ensures |vectors| == |input| && forall k :: 0 <= k < |input| ==> vectors[k] == embed(input[k])
    {
      vectors := seq(|input|, k requires 0 <= k < |input| => embed(input[k]));
      requests := requests + [EmbeddingRequest(model, input)];
    }
  }

  /** The chat-completion service: answers each request with the text `reply` gives it. */
  class ChatClient {
    const reply: ChatRequest -> string
    /** The calls made so far, in order. */
    var requests: seq<ChatRequest>

    constructor (reply: ChatRequest -> string)
      ensures this.reply == reply && requests == []
    {
      this.reply := reply;
      requests := [];
    }

    /** `chat.completions.create(...).choices[0].message.content`. */
    method Create(request: ChatRequest) returns (content: string)
      modifies this
      ensures requests == old(requests) + [request]
      ensures content == reply(request)
    {
      content := reply(request);
      requests := requests + [request];
    }
  }
}
