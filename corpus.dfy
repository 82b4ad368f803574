/**
 * The offline corpus builder: reduces every parsable workflow file found by
 * the directory walk to a record (source path, name, description, sorted
 * node names) and writes the records as one JSON document per line.
 *
 * File system access and JSON parsing are inputs: the walk is a sequence of
 * folders in traversal order, each with its file names, the parse outcome
 * of each file, and the text of its README.txt when that could be read.
 */
module Corpus {
  import opened Wrappers
  import opened Text
  import opened StringOrder
  import opened LineSplit

  const UnnamedWorkflow := "Unnamed Workflow"
  const OutputFile := "processed_workflows_v2.jsonl"
  const NoNodesSentence := " It does not have any named nodes defined."
  const StepsLead := " It connects and automates the following tools or steps: "

  /**
   * A workflow file as JSON parsing leaves it: the value under `name` when
   * the key is present, and for each element of `nodes` (an absent `nodes`
   * is an empty list) the value under its `name` key when present.
   */
  datatype RawWorkflow = RawWorkflow(name: Option<string>, nodes: seq<Option<string>>)

  /** What the extractor keeps of a workflow. */
  datatype WorkflowInfo = WorkflowInfo(workflowName: string, nodeNames: seq<string>)

  /** One file name of a folder, with the outcome of parsing it (None: it could not be read or parsed). */
  datatype FileEntry = FileEntry(name: string, parsed: Option<RawWorkflow>)

  /**
   * One folder of the walk: its path, its file names in listing order, and
   * the text of its README.txt (None when there is none or it cannot be read).
   */
  datatype FolderEntry = FolderEntry(path: string, files: seq<FileEntry>, readme: Option<string>)

  /** One line of the corpus. */
  datatype WorkflowRecord = WorkflowRecord(sourceFile: string, name: string, description: string, nodes: seq<string>)

  // ---------------------------------------------------------------------
  // Extraction

  /** Some node of `nodes` has the truthy (non-empty) name `e`. */
  predicate NamedNode(nodes: seq<Option<string>>, e: string) {
    e != [] && Some(e) in nodes
  }

  /** The comprehension `[node.get('name', '') for node in nodes if node.get('name')]`. */
  function TruthyNames(nodes: seq<Option<string>>): (r: seq<string>)
    ensures forall e :: e in r <==> NamedNode(nodes, e)
  {
    if nodes == [] then []
    else
      var last := nodes[|nodes| - 1];
      assert nodes == nodes[..|nodes| - 1] + [last];
      var rest := TruthyNames(nodes[..|nodes| - 1]);
      if last.Some? && last.value != [] then rest + [last.value] else rest
  }

  /**
   * `extract_info_from_workflow`: None when the file could not be parsed;
   * otherwise the workflow's name (the stored value, even an empty one, or
   * "Unnamed Workflow" when the key is missing) and the node names as a
   * strictly increasing list holding exactly the truthy node names.
   */
  function ExtractInfo(parsed: Option<RawWorkflow>): (r: Option<WorkflowInfo>)
    ensures r.Some? <==> parsed.Some?
    ensures parsed.Some? && parsed.value.name.None? ==> r.value.workflowName == UnnamedWorkflow
    ensures parsed.Some? && parsed.value.name.Some? ==> r.value.workflowName == parsed.value.name.value
    ensures parsed.Some? ==> Increasing(r.value.nodeNames)
    ensures parsed.Some? ==> forall e :: e in r.value.nodeNames <==> NamedNode(parsed.value.nodes, e)
  {
    match parsed
    case None => None
    case Some(w) => Some(WorkflowInfo(w.name.GetOr(UnnamedWorkflow), SortedSet(TruthyNames(w.nodes))))
  }

  /** The node names depend only on which truthy names occur, not on node order or repetition. */
  lemma NodeNamesDetermined(w1: RawWorkflow, w2: RawWorkflow)
    requires forall e :: NamedNode(w1.nodes, e) <==> NamedNode(w2.nodes, e)
    ensures ExtractInfo(Some(w1)).value.nodeNames == ExtractInfo(Some(w2)).value.nodeNames
  {
    IncreasingUnique(ExtractInfo(Some(w1)).value.nodeNames, ExtractInfo(Some(w2)).value.nodeNames);
  }

  /** Nodes named B, A, A give the node list [A, B]; a workflow without a name is "Unnamed Workflow". */
  lemma ExtractExample()
    ensures ExtractInfo(Some(RawWorkflow(None, [Some("B"), Some("A"), Some("A")])))
         == Some(WorkflowInfo(UnnamedWorkflow, ["A", "B"]))
  {
    var nodes := [Some("B"), Some("A"), Some("A")];
    var names := SortedSet(TruthyNames(nodes));
    assert NamedNode(nodes, "A") && NamedNode(nodes, "B");
    forall e ensures e in names <==> e in ["A", "B"] {
      if NamedNode(nodes, e) {
        assert e == "A" || e == "B";
      }
    }
    assert Below("A", "B");
    IncreasingUnique(names, ["A", "B"]);
  }

  // ---------------------------------------------------------------------
  // Templated description

  function Intro(name: string): string {
    "This is an automated workflow named '" + name + "'."
  }

  /** `generate_templated_description`. */
  function TemplatedDescription(info: WorkflowInfo): string {
    Intro(info.workflowName) +
      if info.nodeNames == [] then NoNodesSentence
      else StepsLead + Join(", ", info.nodeNames) + "."
  }

  /**
   * The description says the workflow has no named nodes exactly when its
   * node list is empty; otherwise it lists the nodes joined by ", ".
   */
  lemma TemplatedDescriptionCases(info: WorkflowInfo)
    ensures TemplatedDescription(info) == Intro(info.workflowName) + NoNodesSentence
        <==> info.nodeNames == []
    ensures info.nodeNames != [] ==>
      TemplatedDescription(info) == Intro(info.workflowName) + StepsLead + Join(", ", info.nodeNames) + "."
  {
    if info.nodeNames != [] {
      var intro := Intro(info.workflowName);
      var tail := StepsLead + Join(", ", info.nodeNames) + ".";
      var d := TemplatedDescription(info);
      assert d == intro + tail;
      assert |tail| > |NoNodesSentence|;
    }
  }

  /** The description names the workflow and every one of its nodes. */
  lemma TemplatedDescriptionMentions(info: WorkflowInfo)
    ensures IsSubstring(Intro(info.workflowName), TemplatedDescription(info))
    ensures forall k :: 0 <= k < |info.nodeNames| ==> IsSubstring(info.nodeNames[k], TemplatedDescription(info))
  {
    var intro := Intro(info.workflowName);
    var joined := Join(", ", info.nodeNames);
    var d := TemplatedDescription(info);
    assert d[0..|intro|] == intro;
    SubstringAt(intro, d, 0);
    if info.nodeNames != [] {
      assert d == (intro + StepsLead) + joined + ".";
      forall k | 0 <= k < |info.nodeNames|
        ensures IsSubstring(info.nodeNames[k], d)
      {
        JoinContains(", ", info.nodeNames, k);
        SubstringInfix(info.nodeNames[k], intro + StepsLead, joined, ".");
      }
    }
  }

  /** The template for workflow "Foo" with nodes A and B. */
  lemma TemplatedDescriptionExample()
    ensures TemplatedDescription(WorkflowInfo("Foo", ["A", "B"]))
         == "This is an automated workflow named 'Foo'." + " It connects and automates the following tools or steps: A, B."
  {
    assert ["A", "B"][1..] == ["B"];
    assert Join(", ", ["B"]) == "B";
    assert Join(", ", ["A", "B"]) == "A, B";
    assert Intro("Foo") == "This is an automated workflow named 'Foo'.";
    assert TemplatedDescription(WorkflowInfo("Foo", ["A", "B"])) == Intro("Foo") + (StepsLead + "A, B" + ".");
  }

  // ---------------------------------------------------------------------
  // The walk

  /** `f.lower().endswith('.json')`. */
  predicate IsJsonFile(name: string) {
    EndsWith(Lower(name), ".json")
  }

  /** The builder's own output file is never taken as input. */
  lemma OutputFileIsNotInput()
    ensures !IsJsonFile(OutputFile)
  {
    var low := Lower(OutputFile);
    assert low[|low| - 5] == AsciiLower(OutputFile[|OutputFile| - 5]) == 'j';
  }

  /**
   * A file is taken exactly when its last five characters, lower-cased,
   * are ".json": the extension is accepted in any casing.
   */
  lemma JsonExtensionAnyCase(name: string)
    ensures IsJsonFile(name) <==> |name| >= 5 && Lower(name[|name| - 5..]) == ".json"
  {
    if |name| >= 5 {
      assert Lower(name)[|name| - 5..] == Lower(name[|name| - 5..]);
    }
  }

  /** An upper-case extension is accepted. */
  lemma JsonExtensionExample()
    ensures IsJsonFile("Flow.JSON")
  {
    JsonExtensionAnyCase("Flow.JSON");
    assert "Flow.JSON"[4..] == ".JSON";
    assert Lower(".JSON") == ".json";
  }

  /** `[f for f in filenames if f.lower().endswith('.json')]`. */
  function JsonFiles(files: seq<FileEntry>): (r: seq<FileEntry>)
    ensures forall f :: f in r <==> f in files && IsJsonFile(f.name)
  {
    if files == [] then []
    else
      var last := files[|files| - 1];
      assert files == files[..|files| - 1] + [last];
      JsonFiles(files[..|files| - 1]) + if IsJsonFile(last.name) then [last] else []
  }

  /** The folder-wide description: the stripped README.txt text, or "" when it is missing or unreadable. */
  function ReadmeContent(folder: FolderEntry): string {
    match folder.readme
    case None => ""
    case Some(text) => Strip(text)
  }

  /** The README text when it is non-empty, the template otherwise. */
  function FinalDescription(readme: string, info: WorkflowInfo): string {
    if readme != [] then readme else TemplatedDescription(info)
  }

  function RecordOf(dir: string, readme: string, file: FileEntry, info: WorkflowInfo): WorkflowRecord {
    WorkflowRecord(PathJoin(dir, file.name), info.workflowName, FinalDescription(readme, info), info.nodeNames)
  }

  /** The records of the given files of one folder, one per file that parses, in order. */
  function FileRecords(dir: string, readme: string, files: seq<FileEntry>): seq<WorkflowRecord>
  {
    if files == [] then []
    else FileRecords(dir, readme, files[..|files| - 1]) + FileRecord(dir, readme, files[|files| - 1])
  }

  /** The record of one file, when it parses. */
  function FileRecord(dir: string, readme: string, file: FileEntry): seq<WorkflowRecord> {
    match ExtractInfo(file.parsed)
    case None => []
    case Some(info) => [RecordOf(dir, readme, file, info)]
  }

  /** The records of one folder; a folder without .json files is skipped. */
  function FolderRecords(folder: FolderEntry): seq<WorkflowRecord> {
    var jsonFiles := JsonFiles(folder.files);
    if jsonFiles == [] then [] else FileRecords(folder.path, ReadmeContent(folder), jsonFiles)
  }

  /** The corpus built from a walk: the folders' records, in traversal order. */
  function CorpusOf(walk: seq<FolderEntry>): seq<WorkflowRecord> {
    if walk == [] then [] else CorpusOf(walk[..|walk| - 1]) + FolderRecords(walk[|walk| - 1])
  }

  /**
   * The main loop of the builder. It goes through the folders in traversal
   * order and appends the records of each, counting them as it goes.
   */
  method BuildCorpus(walk: seq<FolderEntry>) returns (records: seq<WorkflowRecord>, processedCount: nat)
    ensures records == CorpusOf(walk)
    ensures processedCount == |records|
  {
    records, processedCount := [], 0;
    var i := 0;
    while i < |walk|
      invariant 0 <= i <= |walk|
      invariant records == CorpusOf(walk[..i])
      invariant processedCount == |records|
    {
      var folderRecords, count := ProcessFolder(walk[i]);
      records := records + folderRecords;
      processedCount := processedCount + count;
      assert walk[..i + 1][..i] == walk[..i];
      i := i + 1;
    }
    assert walk[..i] == walk;
  }

  /**
   * One pass of the builder's folder loop: skip a folder without .json files;
   * otherwise take the README text once and go through the .json files in
   * order, making a record of each file that parses.
   */
  method ProcessFolder(folder: FolderEntry) returns (folderRecords: seq<WorkflowRecord>, count: nat)
    ensures folderRecords == FolderRecords(folder)
    ensures count == |folderRecords|
  {
    folderRecords, count := [], 0;
    var jsonFiles := JsonFiles(folder.files);
    if jsonFiles == [] {
      return;
    }
    var readme := ReadmeContent(folder);
    for j := 0 to |jsonFiles|
      invariant folderRecords == FileRecords(folder.path, readme, jsonFiles[..j])
      invariant count == |folderRecords|
    {
      var file := jsonFiles[j];
      var info := ExtractInfo(file.parsed);
      if info.Some? {
        var description := readme;
        if description == [] {
          description := TemplatedDescription(info.value);
        }
        var rec := WorkflowRecord(PathJoin(folder.path, file.name), info.value.workflowName, description, info.value.nodeNames);
        folderRecords := folderRecords + [rec];
        count := count + 1;
      }
      assert jsonFiles[..j + 1][..j] == jsonFiles[..j];
    }
    assert jsonFiles[..|jsonFiles|] == jsonFiles;
  }

  // ---------------------------------------------------------------------
  // Properties of the corpus

  /** `file` of `folder` is a .json file that parses, and `r` is its record. */
  predicate ProducedBy(folder: FolderEntry, file: FileEntry, r: WorkflowRecord) {
    && file in folder.files
    && IsJsonFile(file.name)
    && ExtractInfo(file.parsed).Some?
    && r == RecordOf(folder.path, ReadmeContent(folder), file, ExtractInfo(file.parsed).value)
  }

  lemma {:induction false} FileRecordsMembers(dir: string, readme: string, files: seq<FileEntry>, r: WorkflowRecord)
    ensures r in FileRecords(dir, readme, files) <==>
      exists f :: f in files && ExtractInfo(f.parsed).Some? && r == RecordOf(dir, readme, f, ExtractInfo(f.parsed).value)
  {
    if files != [] {
      var front := files[..|files| - 1];
      assert files == front + [files[|files| - 1]];
      FileRecordsMembers(dir, readme, front, r);
    }
  }

  /**
   * A record is in the corpus exactly when some folder of the walk has a
   * .json file that parses and whose record it is. In particular files that
   * fail to parse, and files that are not .json files, produce nothing.
   */
  lemma {:induction false} CorpusMembers(walk: seq<FolderEntry>, r: WorkflowRecord)
    ensures r in CorpusOf(walk) <==> exists folder, file :: folder in walk && ProducedBy(folder, file, r)
  {
    if walk != [] {
      var front := walk[..|walk| - 1];
      var folder := walk[|walk| - 1];
      assert walk == front + [folder];
      CorpusMembers(front, r);
      var jsonFiles := JsonFiles(folder.files);
      FileRecordsMembers(folder.path, ReadmeContent(folder), jsonFiles, r);
      if r in FolderRecords(folder) {
        var f :| f in jsonFiles && ExtractInfo(f.parsed).Some?
          && r == RecordOf(folder.path, ReadmeContent(folder), f, ExtractInfo(f.parsed).value);
        assert ProducedBy(folder, f, r);
      }
      if exists file :: ProducedBy(folder, file, r) {
        var file :| ProducedBy(folder, file, r);
        assert file in jsonFiles;
      }
    }
  }

  /**
   * The descriptions of one folder: with a non-empty README text every
   * record carries that text; without one each record carries the template
   * built from its own name and nodes.
   */
  lemma FolderDescriptions(folder: FolderEntry)
    ensures ReadmeContent(folder) != [] ==>
      forall r :: r in FolderRecords(folder) ==> r.description == ReadmeContent(folder)
    ensures ReadmeContent(folder) == [] ==>
      forall r :: r in FolderRecords(folder) ==> r.description == TemplatedDescription(WorkflowInfo(r.name, r.nodes))
  {
    forall r | r in FolderRecords(folder)
      ensures r.description == FinalDescription(ReadmeContent(folder), WorkflowInfo(r.name, r.nodes))
    {
      FileRecordsMembers(folder.path, ReadmeContent(folder), JsonFiles(folder.files), r);
    }
  }

  /** Every record's source file is the folder path joined with the name of the file it came from. */
  lemma RecordSourceFile(walk: seq<FolderEntry>, r: WorkflowRecord)
    requires r in CorpusOf(walk)
    ensures exists folder, file :: folder in walk && file in folder.files && r.sourceFile == PathJoin(folder.path, file.name)
  {
    CorpusMembers(walk, r);
    var folder, file :| folder in walk && ProducedBy(folder, file, r);
    assert file in folder.files && r.sourceFile == PathJoin(folder.path, file.name);
  }

  /** Records come out in traversal order: the corpus of two walks in a row is the two corpora in a row. */
  lemma {:induction false} CorpusOfAppend(a: seq<FolderEntry>, b: seq<FolderEntry>)
    ensures CorpusOf(a + b) == CorpusOf(a) + CorpusOf(b)
    decreases |b|
  {
    if b == [] {
      assert a + b == a;
    } else {
      var front := b[..|b| - 1];
      assert (a + b)[..|a + b| - 1] == a + front;
      CorpusOfAppend(a, front);
    }
  }

  lemma {:induction false} FileRecordsAppend(dir: string, readme: string, a: seq<FileEntry>, b: seq<FileEntry>)
    ensures FileRecords(dir, readme, a + b) == FileRecords(dir, readme, a) + FileRecords(dir, readme, b)
    decreases |b|
  {
    if b == [] {
      assert a + b == a;
    } else {
      assert (a + b)[..|a + b| - 1] == a + b[..|b| - 1];
      FileRecordsAppend(dir, readme, a, b[..|b| - 1]);
    }
  }

  lemma {:induction false} JsonFilesAppend(a: seq<FileEntry>, b: seq<FileEntry>)
    ensures JsonFiles(a + b) == JsonFiles(a) + JsonFiles(b)
    decreases |b|
  {
    if b == [] {
      assert a + b == a;
    } else {
      assert (a + b)[..|a + b| - 1] == a + b[..|b| - 1];
      JsonFilesAppend(a, b[..|b| - 1]);
    }
  }

  /** A file that fails to parse changes nothing: the folder's records are those it has without that file. */
  lemma UnparsableFileIgnored(folder: FolderEntry, k: nat)
    requires k < |folder.files| && folder.files[k].parsed.None?
    ensures FolderRecords(folder.(files := folder.files[..k] + folder.files[k + 1..])) == FolderRecords(folder)
  {
    var a, x, b := folder.files[..k], folder.files[k], folder.files[k + 1..];
    var without := folder.(files := a + b);
    var ja, jx, jb := JsonFiles(a), JsonFiles([x]), JsonFiles(b);
    JsonFilesSplit(folder.files, a, x, b);
    JsonFilesAppend(a, b);
    var dir, readme := folder.path, ReadmeContent(folder);
    assert ReadmeContent(without) == readme;
    UnparsableRecords(dir, readme, x);
    FileRecordsSkip(dir, readme, ja, jx, jb);
    assert FileRecords(dir, readme, []) == [];
  }

  lemma JsonFilesSplit(files: seq<FileEntry>, a: seq<FileEntry>, x: FileEntry, b: seq<FileEntry>)
    requires files == a + [x] + b
    ensures JsonFiles(files) == JsonFiles(a) + JsonFiles([x]) + JsonFiles(b)
  {
    JsonFilesAppend(a + [x], b);
    JsonFilesAppend(a, [x]);
  }

  /** A file that does not parse has no record, whether or not it is a .json file. */
  lemma UnparsableRecords(dir: string, readme: string, x: FileEntry)
    requires x.parsed.None?
    ensures FileRecords(dir, readme, JsonFiles([x])) == []
  {
    assert [x][..0] == [];
    if IsJsonFile(x.name) {
      assert JsonFiles([x]) == [x];
      assert FileRecords(dir, readme, [x]) == FileRecords(dir, readme, []) + FileRecord(dir, readme, x);
    } else {
      assert JsonFiles([x]) == [];
    }
  }

  /** Files without records can be dropped from the middle of a list of files. */
  lemma FileRecordsSkip(dir: string, readme: string, a: seq<FileEntry>, x: seq<FileEntry>, b: seq<FileEntry>)
    requires FileRecords(dir, readme, x) == []
    ensures FileRecords(dir, readme, a + x + b) == FileRecords(dir, readme, a + b)
  {
    FileRecordsAppend(dir, readme, a + x, b);
    FileRecordsAppend(dir, readme, a, x);
    FileRecordsAppend(dir, readme, a, b);
    assert FileRecords(dir, readme, a) + [] == FileRecords(dir, readme, a);
  }

  // ---------------------------------------------------------------------
  // Writing the corpus file

  /** The file text: each record's JSON encoding followed by a newline, in order. */
  function JsonLines(records: seq<WorkflowRecord>, encode: WorkflowRecord -> string): string {
    if records == [] then []
    else JsonLines(records[..|records| - 1], encode) + encode(records[|records| - 1]) + "\n"
  }

  /** Writes `json.dumps(record) + '\n'` for each record; `encode` stands for `json.dumps`. */
  method WriteCorpus(records: seq<WorkflowRecord>, encode: WorkflowRecord -> string) returns (content: string)
    ensures content == JsonLines(records, encode)
  {
    content := [];
    for i := 0 to |records|
      invariant content == JsonLines(records[..i], encode)
    {
      assert records[..i + 1][..i] == records[..i];
      content := content + encode(records[i]) + "\n";
    }
    assert records[..|records|] == records;
  }

  /** `json.dumps` applied to each record. */
  function Encodings(records: seq<WorkflowRecord>, encode: WorkflowRecord -> string): (r: seq<string>)
    ensures |r| == |records| && forall i :: 0 <= i < |records| ==> r[i] == encode(records[i])
  {
    seq(|records|, i requires 0 <= i < |records| => encode(records[i]))
  }

  /**
   * Reading the written file back line by line gives each record's
   * encoding, in order and one per line, since a JSON encoding holds no raw
   * `'\n'` or `'\r'` (both are escaped). So the corpus has exactly one line
   * per record, also for a reader that ends lines at `'\r'`.
   */
  lemma {:induction false} JsonLinesRoundTrip(records: seq<WorkflowRecord>, encode: WorkflowRecord -> string)
    requires forall r :: '\n' !in encode(r) && '\r' !in encode(r)
    ensures Lines(JsonLines(records, encode)) == Encodings(records, encode)
  {
    if records != [] {
      var front, last := records[..|records| - 1], records[|records| - 1];
      JsonLinesRoundTrip(front, encode);
      var e := encode(last);
      JsonLinesStep(records, encode);
      JsonLinesEnd(front, encode);
      LinesAppend(JsonLines(front, encode), e + "\n");
      LinesOfLine(e);
      EncodingsStep(records, encode);
    }
  }

  /**
   * The written text holds no `'\r'` when no encoding does, so a text-mode
   * reader ends its lines exactly at the written `'\n'`s.
   */
  lemma {:induction false} JsonLinesNoReturn(records: seq<WorkflowRecord>, encode: WorkflowRecord -> string)
    requires forall r :: '\r' !in encode(r)
    ensures forall i :: 0 <= i < |JsonLines(records, encode)| ==> JsonLines(records, encode)[i] != '\r'
  {
    if records != [] {
      var front := records[..|records| - 1];
      var e := encode(records[|records| - 1]);
      JsonLinesNoReturn(front, encode);
      JsonLinesStep(records, encode);
      assert forall i :: 0 <= i < |e| ==> e[i] in e;
    }
  }

  lemma JsonLinesStep(records: seq<WorkflowRecord>, encode: WorkflowRecord -> string)
    requires records != []
    ensures JsonLines(records, encode)
         == JsonLines(records[..|records| - 1], encode) + (encode(records[|records| - 1]) + "\n")
  {
  }

  /** The file text is empty or ends in a newline. */
  lemma JsonLinesEnd(records: seq<WorkflowRecord>, encode: WorkflowRecord -> string)
    ensures var s := JsonLines(records, encode); s == [] || s[|s| - 1] == '\n'
  {
  }

  lemma EncodingsStep(records: seq<WorkflowRecord>, encode: WorkflowRecord -> string)
    requires records != []
    ensures Encodings(records, encode)
         == Encodings(records[..|records| - 1], encode) + [encode(records[|records| - 1])]
  {
  }
}
