# n8n workflow assistant — a Dafny model

This project models NextGen-Automation, a small system that searches a library of n8n automation workflows. It has three parts and four files.

- **Corpus builder** (`prepare_data_v2.py`). It walks a folder tree and reads every `.json` workflow file. For each file that parses it keeps:
  - the workflow's name;
  - its node names, sorted and without duplicates;
  - a description: the folder's `README.txt` text, or a sentence built from the name and nodes.

  It writes one JSON record per line to `processed_workflows_v2.jsonl`.
- **Assistant** (`assistant.py`).
  - On first use it fills the vector collection `n8n_workflows` from that file. Each record becomes a document (name, description, nodes). The documents are sent to an embedding service in 1000-record batches.
  - To answer a question it retrieves the five best-ranked workflows and renders them into a numbered context. It then sends one chat request made of a fixed system prompt and a user prompt holding the context and the question.
- **Front ends** (`main.py`, `discord_bot.py`).
  - The search API fills its own collection `n8n_workflows_web`, using only the names as documents. `POST /search` returns the metadata of the five best hits, and `GET /` returns a fixed status.
  - The chat bot loads the assistant's collection when it connects. It answers messages that mention it and come from someone else, with the mention removed from the question.

File system access, JSON parsing and the three external services are inputs to the model:

- The directory walk is a sequence of folders, in traversal order. Each folder carries its file names, each file's parse outcome, and its README text when that could be read.
- The embedding service is a fixed function from text to vector.
- The chat service is a fixed function from request to reply.
- The vector store's nearest-neighbour ranking is a function from question to an ordering of the stored ids.

The embedding and chat clients are classes that record every request they receive, so the proofs state what is sent to them, in which order and how often. The collection records the ids of each `add` call. `count` and `query` only read the collection and are not recorded.

Files:

| file | module | contents |
|---|---|---|
| `wrappers.dfy` | `Wrappers` | `Option` |
| `text.dfy` | `Text` | `str.strip`, `sep.join`, `str(n)`, `str.replace(p, '')`, ASCII lower-casing, `os.path.join` and `basename` |
| `string_order.dfy` | `StringOrder` | Python's string order and `sorted(set(xs))` |
| `lines.dfy` | `LineSplit` | reading a text file line by line |
| `corpus.dfy` | `Corpus` | the corpus builder |
| `batching.dfy` | `Batching` | the 1000-element slices |
| `collaborators.dfy` | `Collaborators` | the vector collection, the embedding service and the chat service |
| `loading.dfy` | `Loading` | the ids and the effect of the two populating loops |
| `assistant.dfy` | `Assistant` | populating `n8n_workflows` and answering a question |
| `web_api.dfy` | `WebApi` | the search API |
| `bot.dfy` | `Bot` | the chat bot |

## Model

| member | source | states |
|---|---|---|
| Corpus.TruthyNames | prepare_data_v2.py:15-17 | holds exactly the non-empty `name` values found among the nodes |
| Corpus.ExtractInfo | prepare_data_v2.py:9-24 | returns None exactly when the file could not be parsed. The name is the stored value (even an empty one), or "Unnamed Workflow" when the key is missing. The node list is strictly increasing and holds exactly the non-empty node names |
| Corpus.NodeNamesDetermined | prepare_data_v2.py:17 | two workflows with the same set of non-empty node names get the same node list, whatever the order or repetition of their nodes |
| Corpus.ExtractExample | prepare_data_v2.py:14-17 | an unnamed workflow with nodes B, A, A gives "Unnamed Workflow" with nodes [A, B] |
| Corpus.TemplatedDescription | prepare_data_v2.py:26-39 | no contract of its own: the template text; its properties are stated by Corpus.TemplatedDescriptionCases, Corpus.TemplatedDescriptionMentions and Corpus.TemplatedDescriptionExample |
| Corpus.TemplatedDescriptionCases | prepare_data_v2.py:26-39 | the description equals the opening sentence followed by the "no named nodes" sentence exactly when the node list is empty. Otherwise it is the opening sentence, the fixed lead, the nodes joined by ", ", and a final "." |
| Corpus.TemplatedDescriptionMentions | prepare_data_v2.py:31-35 | the description contains the opening sentence with the workflow's name, and every node name |
| Corpus.TemplatedDescriptionExample | prepare_data_v2.py:31-35 | the exact text for workflow "Foo" with nodes A and B |
| Corpus.IsJsonFile | prepare_data_v2.py:48 | no contract of its own: the lower-cased name ends in ".json"; Corpus.JsonFiles and Corpus.OutputFileIsNotInput state what follows from it |
| Corpus.JsonExtensionAnyCase | prepare_data_v2.py:48 | a file name is taken if and only if its last five characters, lower-cased, are ".json", so the extension is accepted in any casing |
| Corpus.JsonExtensionExample | prepare_data_v2.py:48 | "Flow.JSON" is taken |
| Corpus.JsonFiles | prepare_data_v2.py:48 | keeps exactly the files whose lower-cased name ends in ".json" |
| Corpus.OutputFileIsNotInput | prepare_data_v2.py:48 | the output file `processed_workflows_v2.jsonl` is never taken as input |
| Corpus.ReadmeContent | prepare_data_v2.py:55-63 | no contract of its own: the stripped README.txt text, or "" when it is missing or unreadable; Corpus.FolderDescriptions states its effect on the records |
| Corpus.FinalDescription | prepare_data_v2.py:71-74 | no contract of its own: the README text when it is non-empty, the template otherwise; Corpus.FolderDescriptions states both cases for every record |
| Corpus.RecordOf | prepare_data_v2.py:81-86 | no contract of its own: the record built from the joined path, the name, the final description and the node names; Corpus.RecordSourceFile and Corpus.CorpusMembers state its properties |
| Corpus.FileRecord | prepare_data_v2.py:68-88 | no contract of its own: one record for a file that parses, none for one that does not; Corpus.UnparsableFileIgnored states the second case |
| Corpus.FileRecords | prepare_data_v2.py:66-88 | no contract of its own: the records of the given files, in order; the reference definition that Corpus.ProcessFolder is proved equal to |
| Corpus.FolderRecords | prepare_data_v2.py:48-88 | no contract of its own: nothing for a folder without .json files, otherwise the records of its .json files; the reference definition that Corpus.ProcessFolder is proved equal to, with Corpus.FolderDescriptions and Corpus.UnparsableFileIgnored about it |
| Corpus.CorpusOf | prepare_data_v2.py:47-88 | no contract of its own: the folders' records in traversal order; the reference definition that Corpus.BuildCorpus is proved equal to, with Corpus.CorpusMembers and Corpus.CorpusOfAppend about it |
| Corpus.BuildCorpus | prepare_data_v2.py:44-88 | the records collected over the walk are the corpus of the walk, and the processed count is their number |
| Corpus.ProcessFolder | prepare_data_v2.py:48-88 | a folder without .json files gives nothing. Otherwise there is one record per parsing .json file, in file order, and the count is their number |
| Corpus.CorpusMembers | prepare_data_v2.py:47-88 | a record is in the corpus if and only if some folder of the walk has a .json file that parses and that gives this record |
| Corpus.FolderDescriptions | prepare_data_v2.py:55-74 | with a non-empty stripped README text, every record of the folder carries that text. Without one, each record carries the template built from its own name and nodes |
| Corpus.RecordSourceFile | prepare_data_v2.py:67-82 | every record's source file is a folder path of the walk joined with a file name of that folder |
| Corpus.CorpusOfAppend | prepare_data_v2.py:47-87 | records follow traversal order: the corpus of two walks in a row is the two corpora in a row |
| Corpus.UnparsableFileIgnored | prepare_data_v2.py:66-70 | removing a file that fails to parse leaves the folder's records unchanged |
| Corpus.JsonLines | prepare_data_v2.py:91-93 | no contract of its own: each record's encoding followed by a newline; Corpus.WriteCorpus is proved equal to it and Corpus.JsonLinesRoundTrip reads it back |
| Corpus.Encodings | prepare_data_v2.py:93 | no contract beyond the comprehension it computes (one encoding per record, in order); Corpus.JsonLinesRoundTrip proves that these are exactly the lines read back from the written file |
| Corpus.WriteCorpus | prepare_data_v2.py:91-93 | the file text is each record's encoding followed by a newline, in order |
| Corpus.JsonLinesRoundTrip | prepare_data_v2.py:91-93 | reading the written file back line by line gives exactly the records' encodings, one per line and in order, given that an encoding holds no raw `'\n'` or `'\r'` |
| Corpus.JsonLinesNoReturn | prepare_data_v2.py:91-93 | the written text holds no `'\r'` when no encoding does, so a text-mode reader ends its lines only at the written newlines |
| StringOrder.Below | prepare_data_v2.py:17 | no contract of its own: Python's `<` on strings, by code point with a proper prefix first; StringOrder.BelowTransitive, StringOrder.BelowTotal, StringOrder.BelowIrreflexive and StringOrder.BelowAsymmetric state that it is a strict total order |
| StringOrder.BelowIrreflexive | prepare_data_v2.py:17 | no string is below itself |
| StringOrder.BelowAsymmetric | prepare_data_v2.py:17 | when `a` is below `b`, `b` is not below `a` |
| StringOrder.Insert | prepare_data_v2.py:17 | inserting into a strictly increasing list keeps it strictly increasing, and adds exactly the new element |
| StringOrder.SortedSet | prepare_data_v2.py:17 | `sorted(set(xs))` is strictly increasing and holds exactly the elements of `xs` |
| StringOrder.IncreasingUnique | prepare_data_v2.py:17 | two strictly increasing lists with the same elements are equal |
| StringOrder.SortedSetOrderIndependent | prepare_data_v2.py:17 | `sorted(set(xs))` depends only on which strings occur in `xs` |
| StringOrder.BelowTransitive | prepare_data_v2.py:17 | Python's string order is transitive |
| StringOrder.BelowTotal | prepare_data_v2.py:17 | any two different strings are ordered one way or the other |
| Text.TrimLeft | prepare_data_v2.py:60 | the result is a suffix of the input that does not start with whitespace |
| Text.TrimRight | prepare_data_v2.py:60 | the result is a prefix of the input that does not end with whitespace |
| Text.Strip | prepare_data_v2.py:60 | the result is a slice of the input that neither starts nor ends with whitespace, and what is cut off on either side is all whitespace. It is empty exactly when the input is all whitespace |
| Text.Join | prepare_data_v2.py:34 | no contract of its own: `sep.join(xs)`; Text.JoinContains states that every element occurs in the result |
| Text.JoinContains | prepare_data_v2.py:34 | every element appears in the ", "-joined text |
| Text.NatToString | assistant.py:49 | `str(i)` is a non-empty digit string without a leading zero that parses back to `i` |
| Text.NatToStringInjective | assistant.py:49 | different indexes give different ids |
| Text.RemoveAll | discord_bot.py:50 | `s.replace(pat, '')` never makes the text longer; Text.RemoveAllAbsent, Bot.QuestionExample and Bot.QuestionCanKeepMention state the rest |
| Text.RemoveAllAbsent | discord_bot.py:50 | `replace(pat, '')` leaves text without an occurrence of `pat` unchanged |
| Text.EndsWith | prepare_data_v2.py:48 | no contract of its own: `s.endswith(suffix)`; Corpus.JsonExtensionAnyCase and Corpus.OutputFileIsNotInput state what it gives for the file filter |
| Text.Lower | prepare_data_v2.py:48 | no contract beyond the character-by-character ASCII lower-casing it computes; what it means for the file filter is stated by Corpus.JsonExtensionAnyCase |
| Text.PathJoin | prepare_data_v2.py:67 | no contract of its own: `posixpath.join(dir, name)`; Text.BasenameOfJoin and Corpus.RecordSourceFile state its properties |
| Text.Basename | assistant.py:85 | the basename is the suffix of the path after its last `/`: it holds no `/` and is preceded by one when it is shorter than the path |
| Text.BasenameOfJoin | assistant.py:85 | the basename of a folder path joined with a plain file name is that file name |
| LineSplit.Lines | assistant.py:33 | no contract of its own: the lines of a text split at `'\n'`; LineSplit.LinesAppend and Corpus.JsonLinesRoundTrip state its properties |
| LineSplit.LinesAppend | assistant.py:33 | reading text that ends in a newline and then more text gives the lines of each, in order |
| Batching.Slice | assistant.py:53-55 | no contract of its own: Python's `s[i:i+1000]`, clamped to the length; Batching.PrefixThenSlice and Batching.BatchAt state its properties |
| Batching.PrefixThenSlice | assistant.py:53-55 | the elements before `i` followed by the slice at `i` are the elements before `i + 1000` (or all of them) |
| Batching.BatchAt | assistant.py:52-55 | slice number `b` is the slice starting at `b * 1000` |
| Batching.Batches | assistant.py:52-55 | no contract of its own: the slices `s[i:i+1000]` for `i` in `range(0, len(s), 1000)`; Batching.BatchesCover, Batching.BatchesBounded, Batching.BatchesCount and Batching.BatchPosition state its properties |
| Batching.BatchesCover | assistant.py:52-55 | the 1000-record slices put back together are the whole sequence: nothing is lost or repeated |
| Batching.BatchesBounded | assistant.py:52-55 | every slice is non-empty and holds at most 1000 elements |
| Batching.BatchesCount | assistant.py:52 | there are ceil(n / 1000) slices |
| Batching.BatchPosition | assistant.py:52-55 | element `p` is in slice `p / 1000` at offset `p % 1000` |
| Batching.BatchesAligned | assistant.py:53-55 | the document, id and metadata sequences are cut at the same places, so the rows of one `add` call stay together |
| Batching.BatchesExample | assistant.py:51-55 | 2500 records are added in slices of 1000, 1000 and 500 |
| Collaborators.Inserted | assistant.py:62-67 | no contract of its own: the entries after adding rows one by one, an already stored id keeping its entry; Collaborators.InsertedAppend, Collaborators.InsertedKeys and Collaborators.InsertedContents state its properties |
| Collaborators.Items | assistant.py:62-67 | no contract beyond the comprehension it computes (row `k` of an `add` pairs id `k` with document `k`, metadata `k` and embedding `k`); Collaborators.InsertedContents and Loading.LoadedRows state what adding the rows stores |
| Collaborators.InsertedAppend | assistant.py:52-67 | two `add` calls, one after the other, store what one `add` of the concatenated rows stores |
| Collaborators.InsertedKeys | assistant.py:62-67 | after `add`, the stored ids are the old ones plus the ids of the rows |
| Collaborators.InsertedContents | assistant.py:62-67 | adding rows with distinct new ids keeps every old entry, stores each row under its id, and grows the count by the number of rows |
| Collaborators.Collection.Count | assistant.py:26 | no contract of its own: the number of stored entries; Assistant.CreateAndLoadDatabase and WebApi.PopulateIfEmpty branch on it, and Collaborators.InsertedContents and Loading.LoadedKeys state how `add` changes it |
| Collaborators.Collection.Add | assistant.py:62-67 | the entries after `add` are the old ones with the rows inserted, and the call is logged |
| Collaborators.Collection.Query | assistant.py:75-79 | the result holds min(n, count) metadatas of stored entries, in ranking order |
| Collaborators.EmbeddingClient.Create | assistant.py:58-59 | one vector per input text, in input order; the call is logged |
| Collaborators.ChatClient.Create | assistant.py:92-100 | the reply to the request; the call is logged |
| Loading.Ids | main.py:37 | there are as many ids as records, no id is used twice, and id `i` reads back as the number `i` |
| Loading.Loaded | assistant.py:51-67 | no contract of its own: the entries of an empty collection after adding the rows; Loading.LoadedKeys and Loading.LoadedRows state its properties |
| Loading.LoadedKeys | assistant.py:49-67 | loading `n` records into an empty collection stores exactly the ids `str(0)` … `str(n-1)` and nothing else |
| Loading.LoadedRows | assistant.py:49-67 | loading stores record `i`'s row under `str(i)` |
| Loading.BatchStep | assistant.py:52-67 | adding the slice at `i` to the entries that hold the first `i` rows gives the entries that hold the first `i + 1000` rows |
| Assistant.RecordMetadata | assistant.py:33 | no contract of its own: a corpus record as read back from its line, its nodes still a list; Assistant.DocumentMentions states what its document holds |
| Assistant.FlattenNodes | assistant.py:42-43 | after flattening, `nodes` is a string that reads as the list's ", "-joined names, every other field is kept, and a string value is left as it is |
| Assistant.FlattenNodesIdempotent | assistant.py:42-43 | flattening twice is flattening once |
| Assistant.Document | assistant.py:46 | no contract of its own: the embedded text of a record; Assistant.DocumentOfFlattened and Assistant.DocumentMentions state its properties |
| Assistant.DocumentOfFlattened | assistant.py:42-46 | the embedded document is the same whether it is built before or after flattening |
| Assistant.DocumentMentions | assistant.py:46 | a record's document holds its name, its description and every one of its node names |
| Assistant.Documents | assistant.py:46-47 | no contract beyond the comprehension it computes (one document per record, in order); Assistant.BuildRecords is proved to build it, and Assistant.DocumentMentions and Assistant.PopulatedCollection state what is stored |
| Assistant.StoredMetadatas | assistant.py:42-48 | no contract beyond the comprehension it computes (one flattened record per record, in order); Assistant.BuildRecords is proved to build it, and Assistant.PopulatedCollection states what is stored |
| Assistant.BuildRecords | assistant.py:35-49 | the three parallel sequences: entry `i` is record `i`'s document, its flattened record, and `str(i)` |
| Assistant.Embedded | assistant.py:58-59 | no contract beyond the comprehension it computes (one supplied embedding per document, in order); Assistant.PopulatedCollection proves that id `i` stores the embedding of document `i` |
| Assistant.EmbeddingCalls | assistant.py:58 | no contract beyond the comprehension it computes (one request per slice, with model `text-embedding-3-small`); Assistant.CreateAndLoadDatabase proves that these are exactly the requests sent, and Assistant.CallsStep carries the loop step |
| Assistant.Supply | assistant.py:59 | no contract beyond the comprehension it computes (each vector of a response passed to `add` as supplied, in order); Assistant.PopulatedCollection proves the result of passing them |
| Assistant.LoadedCorpus | assistant.py:35-67 | no contract of its own: the entries of the populated collection; Assistant.CreateAndLoadDatabase is proved to produce it and Assistant.PopulatedCollection states what it holds |
| Assistant.CreateAndLoadDatabase | assistant.py:22-70 | a non-empty collection is left as it is, with no embedding call. An empty one ends up holding exactly the corpus, with one embedding call and one `add` per 1000-record slice, in order |
| Assistant.AddBatches | assistant.py:51-67 | the batch loop inserts every row with its document's embedding, makes one embedding call per slice and one `add` per slice, in order |
| Assistant.AddBatch | assistant.py:53-67 | one pass of the batch loop extends the stored rows, the embedding calls and the `add` log by the next slice |
| Assistant.CallsStep | assistant.py:58 | the embedding calls of the first `b` slices, followed by the call for slice `b`, are the calls of the first `b + 1` slices |
| Assistant.PopulatedCollection | assistant.py:35-67 | the populated collection holds one entry per record and nothing else: record `i` under `str(i)`, with its document, its flattened metadata and its document's embedding |
| Assistant.Context | assistant.py:81-86 | no contract of its own: the header and the numbered blocks; Assistant.RenderContext, Assistant.ContextHasBlock, Assistant.ContextOfNothing and Assistant.ContextExample state its properties |
| Assistant.NumberLine | assistant.py:83 | no contract of its own: the `--- Workflow j ---` line; Assistant.ContextExample shows it |
| Assistant.NameLine | assistant.py:84 | no contract of its own: the `Name:` line; Assistant.BlockMentions states that each block holds it |
| Assistant.FileLine | assistant.py:85 | no contract of its own: the `File:` line with the basename of the source path; Assistant.BlockMentions and Assistant.ContextExample state its properties |
| Assistant.DescriptionLine | assistant.py:86 | no contract of its own: the `Description:` line and the blank line after it; Assistant.ContextExample shows it |
| Assistant.Block | assistant.py:83-86 | no contract of its own: the four lines of one retrieved workflow; Assistant.BlockMentions, Assistant.ContextHasBlock and Assistant.ContextExample state its properties |
| Assistant.Numbered | assistant.py:82-86 | no contract of its own: the blocks numbered from 1, in order; Assistant.NumberedStep and Assistant.NumberedSplit state its properties |
| Assistant.AppendBlock | assistant.py:83-86 | appending the four lines one by one appends the block |
| Assistant.NumberedStep | assistant.py:82-86 | one more retrieved workflow appends exactly its block, numbered one past the others |
| Assistant.RenderContext | assistant.py:81-86 | the rendered text is the header followed by the numbered blocks of the retrieved workflows, in order |
| Assistant.NumberedSplit | assistant.py:82-86 | the context splits into the blocks of the first `k` workflows followed by those of the rest |
| Assistant.ContextHasBlock | assistant.py:82-86 | every retrieved workflow's block, numbered from 1, appears in the context |
| Assistant.BlockMentions | assistant.py:84-85 | each block holds the workflow's name line and the line with the bare file name of its source |
| Assistant.ContextOfNothing | assistant.py:81 | with nothing retrieved the context is the header alone |
| Assistant.ContextExample | assistant.py:81-86 | the exact context for one workflow stored from `/data/crm/sync.json` |
| Assistant.UserPrompt | assistant.py:89 | no contract of its own: the context, the fixed lead-in and the quoted question; Assistant.UserPromptHoldsQuestion and Assistant.UserPromptInjective state its properties |
| Assistant.UserPromptHoldsQuestion | assistant.py:89 | the user prompt begins with the context and holds the question verbatim right after the fixed lead-in |
| Assistant.UserPromptInjective | assistant.py:89 | different questions over the same context give different prompts |
| Assistant.AssistantRequest | assistant.py:92-99 | no contract of its own: model `gpt-4o`, the system message, the user message and temperature 0.2; Assistant.QueryAssistant states that this is the one request sent |
| Assistant.QueryAssistant | assistant.py:73-100 | exactly one chat request is sent: the system prompt and the user prompt over the context of the five best-ranked workflows. The answer is the reply to it |
| WebApi.Names | main.py:35 | no contract beyond the comprehension it computes; WebApi.PopulatedCollection states that each stored entry has its record's name as document |
| WebApi.StoreVectors | main.py:40 | no contract beyond the comprehension it computes; WebApi.PopulatedCollection states that every stored entry's vector is computed by the store |
| WebApi.PopulateIfEmpty | main.py:29-43 | a non-empty collection is left as it is. An empty one ends up holding every record under `str(i)` with its name as document, with one `add` per 1000-record slice, in order |
| WebApi.AddAll | main.py:39-40 | the slice loop inserts every row and logs one `add` per slice, in order |
| WebApi.AddSlice | main.py:40 | one pass extends the stored rows and the `add` log by the next slice |
| WebApi.PopulatedCollection | main.py:29-40 | the populated collection holds one entry per record and nothing else: record `i` under `str(i)`, with its name as document and the record as metadata |
| WebApi.SearchWorkflows | main.py:49-58 | the response holds the metadatas of the min(5, count) best-ranked stored workflows, in ranking order |
| WebApi.ReadRoot | main.py:60-62 | the status is "AI search API is online" |
| Bot.NotLoadedReply | discord_bot.py:59 | the apology sent before the collection is loaded; Bot.Bot.OnMessage and Bot.Bot.Answer state when it is sent |
| Bot.MentionToken | discord_bot.py:50 | the mention text is `<@`, then only digits that read back as the user's id, then `>` |
| Bot.MentionTokenInjective | discord_bot.py:50 | different users are mentioned by different texts |
| Bot.MentionedIn | discord_bot.py:45 | no contract of its own: the message mentions everyone or mentions the bot's id; Bot.Bot.OnMessage states that only such messages get a reply |
| Bot.ExtractQuestion | discord_bot.py:50 | no contract of its own: the stripped text with every `<@id>` removed; Bot.QuestionWithoutMention, Bot.QuestionExample and Bot.QuestionCanKeepMention state its properties |
| Bot.QuestionWithoutMention | discord_bot.py:50 | text that holds no mention of the bot is only stripped |
| Bot.QuestionExample | discord_bot.py:50 | "<@7> hi" addressed to user 7 gives the question "hi" |
| Bot.QuestionCanKeepMention | discord_bot.py:50 | the removal is a single left-to-right pass, so "<@<@1>1>" addressed to user 1 still gives the question "<@1>" |
| Bot.Bot.constructor | discord_bot.py:21 | the collection starts unset |
| Bot.Bot.OnReady | discord_bot.py:23-34 | the bot keeps the collection that the assistant populated: left as it was when it already held entries, otherwise holding exactly the corpus, with one embedding call and one `add` per 1000-record slice |
| Bot.Bot.OnMessage | discord_bot.py:37-62 | no reply to its own messages or to messages that do not mention it. Before loading, the reply is the fixed apology and the chat service is not called. After loading, the reply is the assistant's answer to the extracted question, with exactly one chat request |
| Bot.Bot.Answer | discord_bot.py:56-59 | the apology before loading, with no chat call; the assistant's answer after loading |

## Left out

- **File I/O and JSON.** Reading files, `json.load`, `json.loads` and `json.dumps` are not modelled.
  - A workflow file's parse outcome is an input; every exception collapses to "could not be parsed".
  - The README text is an input.
  - `json.dumps` is a parameter `encode`.
  - The assistant and the API take the records read back from the corpus file as their input.
- **JSON value types.** Values are strings. A workflow name or node name of another JSON type is not modelled: a non-string name, or a `sorted` that fails on mixed types.
- **Missing record keys.** A corpus record always has its four keys, so the `KeyError` paths of `assistant.py:46` and `assistant.py:84-86` are not modelled.
- **Reading lines back.** `LineSplit.Lines` splits only at `'\n'` and drops the newline. Python's text-mode reading also ends lines at `'\r'` and `"\r\n"` and keeps the line ending, which `json.loads` ignores. The two agree on the corpus file because it holds no `'\r'` (Corpus.JsonLinesNoReturn); on other text they can differ.
- **Traversal.** The order of `os.walk` is an input. `os.path.exists` is not modelled: a missing README and an unreadable one both give "".
- **Mis-indented block.** `prepare_data_v2.py:77-81` is mis-indented: as written, Python rejects the file before it runs. The model assumes the record is built inside `if workflow_info:`, as the surrounding code intends. The R2 URL on line 79 is never used and is not modelled.
- **Embedding and chat services.** Both are fixed functions: `embed` and `reply`.
  - The network, API keys and errors are not modelled.
  - The temperature is the exact value 0.2, not a binary float.
  - `response.data` is taken to be in input order.
- **Vector store.**
  - `get_or_create_collection` is the caller passing in the collection.
  - Similarity search is the `rank` parameter (`Collaborators.Collection.Query`: the model does not state that the ranking is by vector distance).
  - The store's own default embedding function is represented only as `StoreComputed`.
  - So the model does not show the following: `assistant.py` stores vectors from `text-embedding-3-small` but queries with `query_texts`, which the store embeds with its own function.
  - The store's check that metadata values are scalars is not modelled. `main.py` passes records whose `nodes` is still a list.
  - `Collaborators.Collection.Add`: a batch is required to have distinct ids (true of every call the system makes, since ids are `str(i)`). An id that is already stored keeps its entry.
- **Front ends.** These are not modelled:
  - FastAPI routing, CORS, pydantic validation and ASGI start-up (`main.py:12-24`, `main.py:46-47`);
  - the Discord client, its intents, the typing indicator, `client.run`, and the asynchronous interleaving of `on_ready` and `on_message`;
  - the environment checks (`assistant.py:10-12`, `discord_bot.py:10-13`);
  - every `print`;
  - the interactive loop of `assistant.py:104-116`.
- **Bot state and messages.**
  - `Bot.Bot.OnMessage`: `if db_collection:` is modelled as "the collection has been set", treating a collection object as always truthy.
  - `mentioned_in` is "mentions everyone, or mentions the bot's id". This is exactly `mentioned_in` of the bot's own user object, which does not look at role mentions.
  - Matching the sender to the bot is by user id.
  - The reply is returned rather than sent.
- **Text.**
  - `Text.Lower` lower-cases only ASCII letters. Python's full Unicode lower-casing is not modelled. No other character lower-cases to a letter of ".json", so the file filter is unaffected.
  - `Text.Basename` and `Text.PathJoin` follow POSIX paths. Windows separators are not modelled.
