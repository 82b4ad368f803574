/**
 * The assistant (assistant.py): populating the `n8n_workflows` collection
 * from the corpus when it is empty, with vectors from the embedding
 * service, and answering a question by rendering the five retrieved
 * workflows into a prompt for the chat service.
 */
module Assistant {
  import opened Text
  import opened Batching
  import opened Collaborators
  import opened Loading
  import Corpus

  const EmbeddingModel := "text-embedding-3-small"
  const ChatModel := "gpt-4o"
  const Temperature: real := 0.2
  const ResultCount := 5
  const SystemPrompt := "You are 'AutomationFlow AI', a helpful assistant that helps users find the perfect n8n automation workflow from a private library. Be friendly, concise, and helpful. Base your answer STRICTLY on the context provided."
  const ContextHeader := "Here are the most relevant workflows found in the library:\n\n"
  const QuestionLead := "Based on the workflows provided above, please answer my question: '"

  // ---------------------------------------------------------------------
  // Documents, metadatas and ids

  /** How a `nodes` value reads inside a text: a list as its `", "`-joined names, a string as itself. */
  function NodesText(v: NodesValue): string {
    match v
    case NodeList(names) => Join(", ", names)
    case NodeText(text) => text
  }

  /**
   * The record after `item['nodes'] = ", ".join(item['nodes'])` when the
   * value is a list: the nodes become text that reads the same, and
   * every other field is kept.
   */
  function FlattenNodes(m: Metadata): (r: Metadata)
    ensures r.nodes.NodeText? && NodesText(r.nodes) == NodesText(m.nodes)
    ensures r.sourceFile == m.sourceFile && r.name == m.name && r.description == m.description
    ensures m.nodes.NodeText? ==> r == m
  {
    match m.nodes
    case NodeList(names) => m.(nodes := NodeText(Join(", ", names)))
    case NodeText(_) => m
  }

  /** Flattening twice is flattening once. */
  lemma FlattenNodesIdempotent(m: Metadata)
    ensures FlattenNodes(FlattenNodes(m)) == FlattenNodes(m)
  {
  }

  /** The text that is embedded for a record. */
  function Document(m: Metadata): string {
    "Workflow Name: " + m.name + "\nDescription: " + m.description + "\nNodes: " + NodesText(m.nodes)
  }

  /** The document is the same whether it is built before or after the nodes are flattened. */
  lemma DocumentOfFlattened(m: Metadata)
    ensures Document(FlattenNodes(m)) == Document(m)
  {
  }

  /** A corpus record as it is read back from its line. */
  function RecordMetadata(r: Corpus.WorkflowRecord): Metadata {
    Metadata(r.sourceFile, r.name, r.description, NodeList(r.nodes))
  }

  /**
   * The document of a corpus record holds the workflow's name, its
   * description and every one of its node names, so each of them is in
   * the text that is embedded.
   */
  lemma DocumentMentions(r: Corpus.WorkflowRecord)
    ensures IsSubstring(r.name, Document(RecordMetadata(r)))
    ensures IsSubstring(r.description, Document(RecordMetadata(r)))
    ensures forall k :: 0 <= k < |r.nodes| ==> IsSubstring(r.nodes[k], Document(RecordMetadata(r)))
  {
    var lead := "Workflow Name: " + r.name + "\nDescription: ";
    var nodes := Join(", ", r.nodes);
    SubstringSelf(r.name);
    SubstringRight(r.name, "Workflow Name: ", r.name);
    SubstringLeft(r.name, "Workflow Name: " + r.name, "\nDescription: ");
    SubstringLeft(r.name, lead, r.description);
    SubstringLeft(r.name, lead + r.description, "\nNodes: ");
    SubstringLeft(r.name, lead + r.description + "\nNodes: ", nodes);
    SubstringSelf(r.description);
    SubstringRight(r.description, lead, r.description);
    SubstringLeft(r.description, lead + r.description, "\nNodes: ");
    SubstringLeft(r.description, lead + r.description + "\nNodes: ", nodes);
    forall k | 0 <= k < |r.nodes| ensures IsSubstring(r.nodes[k], Document(RecordMetadata(r))) {
      JoinContains(", ", r.nodes, k);
      SubstringRight(r.nodes[k], lead + r.description + "\nNodes: ", nodes);
    }
  }

  /** `documents`: one document per record, in order. */
  function Documents(data: seq<Metadata>): (r: seq<string>)
    ensures |r| == |data| && forall i :: 0 <= i < |data| ==> r[i] == Document(data[i])
  {
    seq(|data|, i requires 0 <= i < |data| => Document(data[i]))
  }

  /** `metadatas`: the records with their nodes flattened, in order. */
  function StoredMetadatas(data: seq<Metadata>): (r: seq<Metadata>)
    ensures |r| == |data| && forall i :: 0 <= i < |data| ==> r[i] == FlattenNodes(data[i])
  {
    seq(|data|, i requires 0 <= i < |data| => FlattenNodes(data[i]))
  }

  /**
   * The loop over `enumerate(workflow_data)` that fills `documents`,
   * `metadatas` and `ids`: three parallel sequences as long as the corpus,
   * entry `i` of each made from record `i`, with `ids[i] == str(i)`.
   */
  method BuildRecords(data: seq<Metadata>) returns (documents: seq<string>, metadatas: seq<Metadata>, ids: seq<string>)
    ensures documents == Documents(data)
    ensures metadatas == StoredMetadatas(data)
    ensures ids == Ids(|data|)
  {
    documents, metadatas, ids := [], [], [];
    for i := 0 to |data|
      invariant documents == Documents(data)[..i]
      invariant metadatas == StoredMetadatas(data)[..i]
      invariant ids == Ids(|data|)[..i]
    {
      var item := FlattenNodes(data[i]);
      DocumentOfFlattened(data[i]);
      documents := documents + [Document(item)];
      metadatas := metadatas + [item];
      ids := ids + [NatToString(i)];
    }
  }

  // ---------------------------------------------------------------------
  // Populating the collection

  /** The vectors passed to `add`: the embedding of each document. */
  function Embedded(docs: seq<string>, embed: string -> Vector): (r: seq<Embedding>)
    ensures |r| == |docs| && forall k :: 0 <= k < |docs| ==> r[k] == Supplied(embed(docs[k]))
  {
    seq(|docs|, k requires 0 <= k < |docs| => Supplied(embed(docs[k])))
  }

  /** The embedding calls made for a sequence of batches: one per batch, in order. */
  function EmbeddingCalls(batches: seq<seq<string>>): (r: seq<EmbeddingRequest>)
    ensures |r| == |batches| && forall k :: 0 <= k < |batches| ==> r[k] == EmbeddingRequest(EmbeddingModel, batches[k])
  {
    seq(|batches|, k requires 0 <= k < |batches| => EmbeddingRequest(EmbeddingModel, batches[k]))
  }

  /** The vectors of one embedding response, as passed to `add`. */
  function Supply(vectors: seq<Vector>): (r: seq<Embedding>)
    ensures |r| == |vectors| && forall k :: 0 <= k < |vectors| ==> r[k] == Supplied(vectors[k])
  {
    seq(|vectors|, k requires 0 <= k < |vectors| => Supplied(vectors[k]))
  }

  /**
   * `create_and_load_database()` on the collection `n8n_workflows`, given
   * the records read back from the corpus file. A collection that already
   * holds entries is left as it is and the embedding service is not called.
   * An empty one ends up holding exactly the records: one embedding call
   * and one `add` per 1000-record slice, in order.
   */
  method CreateAndLoadDatabase(collection: Collection, client: EmbeddingClient, data: seq<Metadata>)
    modifies collection, client
    ensures old(collection.Count()) > 0 ==>
      && collection.entries == old(collection.entries)
      && collection.addLog == old(collection.addLog)
      && client.requests == old(client.requests)
    ensures old(collection.Count()) == 0 ==>
      && collection.entries == LoadedCorpus(data, client.embed)
      && client.requests == old(client.requests) + EmbeddingCalls(Batches(Documents(data)))
      && collection.addLog == old(collection.addLog) + Batches(Ids(|data|))
  {
    if collection.Count() > 0 {
      return;
    }
    assert collection.entries == map[];
    var documents, metadatas, ids := BuildRecords(data);
    AddBatches(collection, client, documents, metadatas, ids);
  }

  /**
   * The `for i in range(0, len(documents), 1000)` loop: embed the slice of
   * documents at `i`, then add the slices at `i` with those vectors.
   */
  method AddBatches(collection: Collection, client: EmbeddingClient, documents: seq<string>, metadatas: seq<Metadata>, ids: seq<string>)
    requires |ids| == |documents| == |metadatas| && Distinct(ids)
    modifies collection, client
    ensures collection.entries == Inserted(old(collection.entries), Items(ids, documents, metadatas, Embedded(documents, client.embed)))
    ensures client.requests == old(client.requests) + EmbeddingCalls(Batches(documents))
    ensures collection.addLog == old(collection.addLog) + Batches(ids)
  {
    ghost var start, calls, log := collection.entries, client.requests, collection.addLog;
    var n := |documents|;
    var i := 0;
    ghost var b := 0;
    while i < n
      invariant i == b * BatchSize
      invariant b == 0 || (b - 1) * BatchSize < n
      invariant b <= |Batches(documents)| && b <= |Batches(ids)|
      invariant HoldsFirst(collection.entries, start, Items(ids, documents, metadatas, Embedded(documents, client.embed)), i)
      invariant client.requests == calls + EmbeddingCalls(Batches(documents)[..b])
      invariant collection.addLog == log + Batches(ids)[..b]
      decreases n - i
    {
      AddBatch(collection, client, documents, metadatas, ids, i, b, start, calls, log);
      i := i + BatchSize;
      b := b + 1;
    }
    BatchesUpTo(documents, b);
    BatchesUpTo(ids, b);
    ghost var items := Items(ids, documents, metadatas, Embedded(documents, client.embed));
    assert items[..n] == items;
    assert Batches(documents)[..b] == Batches(documents);
    assert Batches(ids)[..b] == Batches(ids);
  }

  /**
   * The body of that loop, for the slice at `i`, the start of batch `b`:
   * the collection that held the rows before `i` (on top of `start`) now
   * holds those before `i + 1000`, and batch `b` has been embedded and added.
   */
  method AddBatch(collection: Collection, client: EmbeddingClient, documents: seq<string>, metadatas: seq<Metadata>, ids: seq<string>,
                  i: nat, ghost b: nat, ghost start: map<string, Entry>, ghost calls: seq<EmbeddingRequest>, ghost log: seq<seq<string>>)
    requires |ids| == |documents| == |metadatas| && Distinct(ids) && i < |ids| && i == b * BatchSize
    requires b <= |Batches(documents)| && b <= |Batches(ids)|
    requires HoldsFirst(collection.entries, start, Items(ids, documents, metadatas, Embedded(documents, client.embed)), i)
    requires client.requests == calls + EmbeddingCalls(Batches(documents)[..b])
    requires collection.addLog == log + Batches(ids)[..b]
    modifies collection, client
    ensures b + 1 <= |Batches(documents)| && b + 1 <= |Batches(ids)|
    ensures HoldsFirst(collection.entries, start, Items(ids, documents, metadatas, Embedded(documents, client.embed)), i + BatchSize)
    ensures client.requests == calls + EmbeddingCalls(Batches(documents)[..b + 1])
    ensures collection.addLog == log + Batches(ids)[..b + 1]
  {
    var batchDocs := Slice(documents, i);
    var batchIds := Slice(ids, i);
    var batchMetadatas := Slice(metadatas, i);
    var vectors := client.Create(batchDocs, EmbeddingModel);
    var embeddings := Supply(vectors);
    assert embeddings == Slice(Embedded(documents, client.embed), i);
    DistinctSlice(ids, i);
    collection.Add(batchIds, batchDocs, batchMetadatas, embeddings);
    BatchStep(start, ids, documents, metadatas, Embedded(documents, client.embed), i);
    CallsStep(calls, documents, b);
    LogStep(log, ids, b);
  }

  /** The embedding calls for the first `b` batches, then the call for batch `b`, are the calls for the first `b + 1`. */
  lemma CallsStep(calls: seq<EmbeddingRequest>, documents: seq<string>, b: nat)
    requires b * BatchSize < |documents|
    ensures b < |Batches(documents)|
    ensures calls + EmbeddingCalls(Batches(documents)[..b]) + [EmbeddingRequest(EmbeddingModel, Slice(documents, b * BatchSize))]
         == calls + EmbeddingCalls(Batches(documents)[..b + 1])
  {
    var bs := Batches(documents);
    BatchAt(documents, b);
    assert EmbeddingCalls(bs[..b + 1]) == EmbeddingCalls(bs[..b]) + [EmbeddingRequest(EmbeddingModel, bs[b])];
  }

  /** The entries of an empty collection once the corpus `data` has been loaded into it. */
  function LoadedCorpus(data: seq<Metadata>, embed: string -> Vector): map<string, Entry> {
    Loaded(Ids(|data|), Documents(data), StoredMetadatas(data), Embedded(Documents(data), embed))
  }

  /**
   * After populating an empty collection it holds one entry per record and
   * nothing else: record `i` under `str(i)`, with its document, its
   * flattened metadata and the embedding of its document.
   */
  lemma PopulatedCollection(data: seq<Metadata>, embed: string -> Vector)
    ensures |LoadedCorpus(data, embed)| == |data|
    ensures forall id :: id in LoadedCorpus(data, embed) <==> id in Ids(|data|)
    ensures forall i :: 0 <= i < |data| ==>
      NatToString(i) in LoadedCorpus(data, embed) &&
      LoadedCorpus(data, embed)[NatToString(i)]
        == Entry(Document(data[i]), FlattenNodes(data[i]), Supplied(embed(Document(data[i]))))
  {
    LoadedKeys(Documents(data), StoredMetadatas(data), Embedded(Documents(data), embed));
    LoadedRows(Documents(data), StoredMetadatas(data), Embedded(Documents(data), embed));
  }

  // ---------------------------------------------------------------------
  // Rendering the retrieved workflows

  function NumberLine(j: nat): string {
    "--- Workflow " + NatToString(j) + " ---\n"
  }

  function NameLine(wf: Metadata): string {
    "Name: " + wf.name + "\n"
  }

  /** The source file is shown by its bare file name. */
  function FileLine(wf: Metadata): string {
    "File: " + Basename(wf.sourceFile) + "\n"
  }

  function DescriptionLine(wf: Metadata): string {
    "Description: " + wf.description + "\n\n"
  }

  /** The text for the `j`-th retrieved workflow (1-based). */
  function Block(j: nat, wf: Metadata): string {
    NumberLine(j) + NameLine(wf) + FileLine(wf) + DescriptionLine(wf)
  }

  /** The texts `f(1, wfs[0])`, `f(2, wfs[1])`, ... one after the other. */
  function Numbered(f: (nat, Metadata) -> string, wfs: seq<Metadata>): string
    decreases |wfs|
  {
    if wfs == [] then [] else Numbered(f, wfs[..|wfs| - 1]) + f(|wfs|, wfs[|wfs| - 1])
  }

  /** The context: the header followed by the numbered blocks. */
  function Context(wfs: seq<Metadata>): string {
    ContextHeader + Numbered(Block, wfs)
  }

  /** Appending the four lines of a block one by one appends the block. */
  lemma AppendBlock(before: string, j: nat, wf: Metadata)
    ensures before + NumberLine(j) + NameLine(wf) + FileLine(wf) + DescriptionLine(wf) == before + Block(j, wf)
  {
    Regroup4(before, NumberLine(j), NameLine(wf), FileLine(wf), DescriptionLine(wf));
  }

  // Regrouping a concatenation of strings. Proved on their own: asserted
  // inline, next to the definitions of the lines, these run the solver out
  // of resource.

  lemma Regroup4(c: string, a: string, b: string, d: string, e: string)
    ensures c + a + b + d + e == c + (a + b + d + e)
  {
  }

  lemma Regroup3(a: string, b: string, c: string)
    ensures a + b + c == a + (b + c)
  {
  }

  lemma NumberedStep(f: (nat, Metadata) -> string, wfs: seq<Metadata>, i: nat)
    requires i < |wfs|
    ensures Numbered(f, wfs[..i + 1]) == Numbered(f, wfs[..i]) + f(i + 1, wfs[i])
  {
    assert wfs[..i + 1][..i] == wfs[..i];
  }

  /** The `context += ...` loop of `query_assistant`. */
  method RenderContext(relevant: seq<Metadata>) returns (context: string)
    ensures context == Context(relevant)
  {
    context := ContextHeader;
    assert relevant[..0] == [];
    assert ContextHeader + [] == ContextHeader;
    for i := 0 to |relevant|
      invariant context == ContextHeader + Numbered(Block, relevant[..i])
    {
      var wf := relevant[i];
      ghost var before := context;
      context := context + NumberLine(i + 1);
      context := context + NameLine(wf);
      context := context + FileLine(wf);
      context := context + DescriptionLine(wf);
      AppendBlock(before, i + 1, wf);
      NumberedStep(Block, relevant, i);
      Regroup3(ContextHeader, Numbered(Block, relevant[..i]), Block(i + 1, wf));
    }
    assert relevant[..|relevant|] == relevant;
  }

  /** The texts numbered `k + 1` onwards. */
  function NumberedAfter(f: (nat, Metadata) -> string, wfs: seq<Metadata>, k: nat): string
    requires k <= |wfs|
    decreases |wfs| - k
  {
    if k == |wfs| then [] else f(k + 1, wfs[k]) + NumberedAfter(f, wfs, k + 1)
  }

  /** The texts of all workflows are those of the first `k`, then those after them. */
  lemma {:induction false} NumberedSplit(f: (nat, Metadata) -> string, wfs: seq<Metadata>, k: nat)
    requires k <= |wfs|
    ensures Numbered(f, wfs) == Numbered(f, wfs[..k]) + NumberedAfter(f, wfs, k)
    decreases |wfs| - k
  {
    if k < |wfs| {
      NumberedSplit(f, wfs, k + 1);
      assert wfs[..k + 1][..k] == wfs[..k];
      assert Numbered(f, wfs[..k + 1]) == Numbered(f, wfs[..k]) + f(k + 1, wfs[k]);
    } else {
      assert wfs[..k] == wfs;
    }
  }

  /** Every retrieved workflow has its numbered block in the context. */
  lemma ContextHasBlock(wfs: seq<Metadata>, j: nat)
    requires j < |wfs|
    ensures IsSubstring(Block(j + 1, wfs[j]), Context(wfs))
  {
    var blk := Block(j + 1, wfs[j]);
    NumberedSplit(Block, wfs, j);
    SubstringSelf(blk);
    SubstringLeft(blk, blk, NumberedAfter(Block, wfs, j + 1));
    SubstringRight(blk, Numbered(Block, wfs[..j]), NumberedAfter(Block, wfs, j));
    SubstringRight(blk, ContextHeader, Numbered(Block, wfs));
  }

  /** A block names the workflow and gives the bare file name of its source path. */
  lemma BlockMentions(j: nat, wf: Metadata)
    ensures IsSubstring(NameLine(wf), Block(j, wf))
    ensures IsSubstring(FileLine(wf), Block(j, wf))
  {
    SubstringSelf(NameLine(wf));
    SubstringRight(NameLine(wf), NumberLine(j), NameLine(wf));
    SubstringLeft(NameLine(wf), NumberLine(j) + NameLine(wf), FileLine(wf));
    SubstringLeft(NameLine(wf), NumberLine(j) + NameLine(wf) + FileLine(wf), DescriptionLine(wf));
    SubstringSelf(FileLine(wf));
    SubstringRight(FileLine(wf), NumberLine(j) + NameLine(wf), FileLine(wf));
    SubstringLeft(FileLine(wf), NumberLine(j) + NameLine(wf) + FileLine(wf), DescriptionLine(wf));
  }

  /** With nothing retrieved, the context is the header alone. */
  lemma ContextOfNothing()
    ensures Context([]) == ContextHeader
  {
  }

  /** One retrieved workflow stored from `/data/crm/sync.json`. */
  lemma ContextExample()
    ensures Context([Metadata("/data/crm/sync.json", "Invoice Sync", "Syncs invoices.", NodeText("Stripe"))])
         == ContextHeader + (("--- Workflow " + "1" + " ---\n") + ("Name: " + "Invoice Sync" + "\n")
                             + ("File: " + "sync.json" + "\n") + ("Description: " + "Syncs invoices." + "\n\n"))
  {
    var wf := Metadata("/data/crm/sync.json", "Invoice Sync", "Syncs invoices.", NodeText("Stripe"));
    assert "/data/crm/sync.json" == PathJoin("/data/crm", "sync.json");
    BasenameOfJoin("/data/crm", "sync.json");
    assert FileLine(wf) == "File: " + "sync.json" + "\n";
    assert NatToString(1) == "1";
    assert NumberLine(1) == "--- Workflow " + "1" + " ---\n";
    NumberedSingle(Block, wf);
  }

  lemma NumberedSingle(f: (nat, Metadata) -> string, wf: Metadata)
    ensures Numbered(f, [wf]) == f(1, wf)
  {
    assert [wf][..0] == [];
  }

  // ---------------------------------------------------------------------
  // The prompt

  /** The user prompt: the context, then the question quoted verbatim. */
  function UserPrompt(context: string, question: string): string {
    context + QuestionLead + question + "'"
  }

  /**
   * The prompt starts with the context and holds the question verbatim
   * right after the fixed lead-in, so prompts built from the same context
   * for different questions differ.
   */
  lemma UserPromptHoldsQuestion(context: string, question: string)
    ensures UserPrompt(context, question)[..|context|] == context
    ensures |context| + |QuestionLead| + |question| < |UserPrompt(context, question)|
    ensures UserPrompt(context, question)[|context| + |QuestionLead|..|context| + |QuestionLead| + |question|] == question
  {
  }

  lemma UserPromptInjective(context: string, q1: string, q2: string)
    requires UserPrompt(context, q1) == UserPrompt(context, q2)
    ensures q1 == q2
  {
    UserPromptHoldsQuestion(context, q1);
    UserPromptHoldsQuestion(context, q2);
  }

  /** The chat request `query_assistant` sends for a question and a rendered context. */
  function AssistantRequest(question: string, context: string): ChatRequest {
    ChatRequest(ChatModel, [ChatMessage("system", SystemPrompt), ChatMessage("user", UserPrompt(context, question))], Temperature)
  }

  /**
   * `query_assistant(question, collection)`: retrieve the five best-ranked
   * workflows, render them, and return the chat service's reply to one
   * request built from them. The collection is only read.
   */
  method QueryAssistant(question: string, collection: Collection, rank: string -> seq<string>, chat: ChatClient) returns (answer: string)
    requires IsRanking(rank(question), collection.entries)
    modifies chat
    ensures chat.requests == old(chat.requests) + [AssistantRequest(question, Context(collection.Query(question, ResultCount, rank)))]
    ensures answer == chat.reply(AssistantRequest(question, Context(collection.Query(question, ResultCount, rank))))
  {
    var relevantWorkflows := collection.Query(question, ResultCount, rank);
    var context := RenderContext(relevantWorkflows);
    var userPrompt := UserPrompt(context, question);
    var messages := [ChatMessage("system", SystemPrompt), ChatMessage("user", userPrompt)];
    answer := chat.Create(ChatRequest(ChatModel, messages, Temperature));
  }
}
