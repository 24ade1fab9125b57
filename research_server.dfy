/**
  The research server's paper cache. Papers found on arXiv are stored under
  a `papers` directory, one folder per normalised topic, each holding a
  `papers_info.json` file that maps arXiv short ids to paper records. The
  tools search and store (`search_papers`), look a paper up across all
  folders (`extract_info`), list the folders (`get_available_folders`),
  render one folder as Markdown (`get_papers_in_topic`) and build the
  research prompt (`get_search_prompt`).

  The filesystem is a value: whether the `papers` directory exists and its
  entries in listing order. The arXiv client's answer and whether writing
  the cache file succeeds are parameters.
*/
module ResearchServer {
  import opened Wrappers
  import opened Dicts
  import opened Text

  // ---------------------------------------------------------------------------
  // Topic folders
  // ---------------------------------------------------------------------------

  /** `topic.lower().replace(" ", "_")`: the folder a topic is stored under. */
  function NormalizeTopic(topic: string): (folder: string)
    ensures |folder| == |topic|
    ensures forall i :: 0 <= i < |folder| ==> folder[i] != ' ' && !IsUpper(folder[i])
  {
    ReplaceChar(Lower(topic), ' ', '_')
  }

  /** A folder name is its own normalisation. */
  lemma NormalizeIdempotent(topic: string)
    ensures NormalizeTopic(NormalizeTopic(topic)) == NormalizeTopic(topic)
  {
    var f := NormalizeTopic(topic);
    assert Lower(f) == f;
    assert ReplaceChar(f, ' ', '_') == f;
  }

  /** Two characters a topic may hold at the same place and still name the same folder. */
  predicate SameTopicChar(c: char, d: char) {
    LowerChar(c) == LowerChar(d) ||
    ((LowerChar(c) == ' ' || LowerChar(c) == '_') && (LowerChar(d) == ' ' || LowerChar(d) == '_'))
  }

  /**
    Two topics share a folder exactly when they have the same length and,
    place by place, agree up to case, with space and underscore counted alike.
  */
  lemma SameFolder(a: string, b: string)
    ensures NormalizeTopic(a) == NormalizeTopic(b) <==>
      |a| == |b| && forall i :: 0 <= i < |a| ==> SameTopicChar(a[i], b[i])
  {
    var fa, fb := NormalizeTopic(a), NormalizeTopic(b);
    if fa == fb {
      forall i | 0 <= i < |a|
        ensures SameTopicChar(a[i], b[i])
      {
        assert fa[i] == fb[i];
      }
    }
    if |a| == |b| && forall i :: 0 <= i < |a| ==> SameTopicChar(a[i], b[i]) {
      forall i | 0 <= i < |a|
        ensures fa[i] == fb[i]
      {
        assert SameTopicChar(a[i], b[i]);
      }
    }
  }

  /**
    Case variants and space/underscore variants of a topic share its folder,
    such as "Quantum Computing", "quantum computing" and "quantum_computing".
  */
  lemma TopicVariants(topic: string)
    ensures NormalizeTopic(Lower(topic)) == NormalizeTopic(topic)
    ensures NormalizeTopic(ReplaceChar(topic, ' ', '_')) == NormalizeTopic(topic)
    ensures NormalizeTopic(ReplaceChar(topic, '_', ' ')) == NormalizeTopic(topic)
  {
    SameFolder(Lower(topic), topic);
    SameFolder(ReplaceChar(topic, ' ', '_'), topic);
    SameFolder(ReplaceChar(topic, '_', ' '), topic);
  }

  // ---------------------------------------------------------------------------
  // The cache on disk
  // ---------------------------------------------------------------------------

  /**
    One stored paper, as read back from `papers_info.json`; a field a file
    lacks is `None`, which the renderer replaces by a default.
  */
  datatype PaperRecord = PaperRecord(
    title: Option<string>,
    authors: Option<seq<string>>,
    summary: Option<string>,
    pdfUrl: Option<string>,
    published: Option<string>)

  /** The `papers_info.json` of a topic folder: absent, not valid JSON, or an id-to-record map. */
  datatype CacheFile = NoCacheFile | Unparsable | Cached(papers: Dict<string, PaperRecord>)

  /** An entry of the `papers` directory. */
  datatype Entry = PlainFile | Folder(cache: CacheFile)

  /** The `papers` directory: whether it exists, and its entries in listing order. */
  datatype PaperDir = PaperDir(present: bool, entries: Dict<string, Entry>)

  /** A result of the arXiv search, with its date already printed as `YYYY-MM-DD`. */
  datatype ArxivPaper = ArxivPaper(
    shortId: string,
    title: string,
    authors: seq<string>,
    summary: string,
    pdfUrl: string,
    published: string)

  /** An element of the `papers` list `search_papers` returns. */
  datatype PaperSummary = PaperSummary(id: string, title: string, authors: seq<string>, published: string)

  /** The JSON object `search_papers` returns. */
  datatype SearchReply =
    | SearchFailed(error: string, topic: string)
    | FolderBlocked(folder: string)
    | SearchResult(topic: string, count: nat, papers: seq<PaperSummary>)

  /**
    How writing `papers_info.json` ends: the merged map is written; `open`
    raises, so the old file stays as it was; or writing raises after `open`
    has truncated the file, which leaves an empty or cut-off JSON text that
    no longer parses.
  */
  datatype SaveOutcome = Written | OpenFailed | WriteFailed

  /** The directory and the reply after one `search_papers` call. */
  datatype SearchStep = SearchStep(dir: PaperDir, reply: SearchReply)

  /** The record stored for a fetched paper keeps every field, all authors included. */
  function Record(p: ArxivPaper): PaperRecord {
    PaperRecord(Some(p.title), Some(p.authors), Some(p.summary), Some(p.pdfUrl), Some(p.published))
  }

  /** `authors[:3]`. */
  function FirstAuthors(authors: seq<string>): (r: seq<string>)
    ensures |r| == (if |authors| <= 3 then |authors| else 3) && r <= authors
  {
    if |authors| <= 3 then authors else authors[..3]
  }

  function Summarize(p: ArxivPaper): PaperSummary {
    PaperSummary(p.shortId, p.title, FirstAuthors(p.authors), p.published)
  }

  function PaperId(p: ArxivPaper): string {
    p.shortId
  }

  /** The cache `search_papers` starts from: the stored map, or `{}` when the file is missing or unparsable. */
  function StoredPapers(entry: Option<Entry>): Dict<string, PaperRecord> {
    match entry
    case Some(Folder(Cached(papers))) => papers
    case _ => []
  }

  /** `for paper in papers: papers_info[paper_id] = {...}`. */
  function Merge(cache: Dict<string, PaperRecord>, papers: seq<ArxivPaper>): Dict<string, PaperRecord>
    decreases |papers|
  {
    if papers == [] then cache
    else
      var last := papers[|papers| - 1];
      Put(Merge(cache, papers[..|papers| - 1]), last.shortId, Record(last))
  }

  lemma MergeStep(cache: Dict<string, PaperRecord>, papers: seq<ArxivPaper>, i: nat)
    requires i < |papers|
    ensures Merge(cache, papers[..i + 1]) == Put(Merge(cache, papers[..i]), papers[i].shortId, Record(papers[i]))
  {
    assert papers[..i + 1][..i] == papers[..i];
  }

  predicate Fetched(papers: seq<ArxivPaper>, id: string) {
    exists j :: 0 <= j < |papers| && papers[j].shortId == id
  }

  /** The position of the last fetched paper with the given id. */
  function LastIndex(papers: seq<ArxivPaper>, id: string): (i: nat)
    requires Fetched(papers, id)
    ensures i < |papers| && papers[i].shortId == id
    ensures forall j :: i < j < |papers| ==> papers[j].shortId != id
    decreases |papers|
  {
    if papers[|papers| - 1].shortId == id then |papers| - 1
    else
      var init := papers[..|papers| - 1];
      assert Fetched(init, id) by {
        var j :| 0 <= j < |papers| && papers[j].shortId == id;
        assert init[j] == papers[j];
      }
      LastIndex(init, id)
  }

  /**
    After the merge a fetched id maps to the record of the last paper with
    that id in the search result; every other id keeps its stored record.
  */
  lemma {:induction false} MergeGet(cache: Dict<string, PaperRecord>, papers: seq<ArxivPaper>, id: string)
    ensures Get(Merge(cache, papers), id) ==
      if Fetched(papers, id) then Some(Record(papers[LastIndex(papers, id)])) else Get(cache, id)
    decreases |papers|
  {
    if papers != [] {
      var init := papers[..|papers| - 1];
      var last := papers[|papers| - 1];
      var before := Merge(cache, init);
      assert Merge(cache, papers) == Put(before, last.shortId, Record(last));
      FetchedSnoc(papers, id);
      if last.shortId != id {
        MergeGet(cache, init, id);
        assert Get(Merge(cache, papers), id) == Get(before, id);
        if Fetched(init, id) {
          var i := LastIndex(init, id);
          assert LastIndex(papers, id) == i;
          assert papers[i] == init[i];
        }
      }
    }
  }

  /**
    The merge keeps every stored id, in its place, and adds the fetched ids
    after them; a well-formed cache stays well formed.
  */
  lemma {:induction false} MergeKeys(cache: Dict<string, PaperRecord>, papers: seq<ArxivPaper>)
    ensures Keys(cache) <= Keys(Merge(cache, papers))
    ensures forall id :: id in Keys(Merge(cache, papers)) <==> id in Keys(cache) || Fetched(papers, id)
    ensures Wf(cache) ==> Wf(Merge(cache, papers))
    decreases |papers|
  {
    if papers != [] {
      var init := papers[..|papers| - 1];
      var last := papers[|papers| - 1];
      MergeKeys(cache, init);
      var before := Merge(cache, init);
      var after := Put(before, last.shortId, Record(last));
      assert Merge(cache, papers) == after;
      assert Keys(before) <= Keys(after);
      forall id
        ensures id in Keys(after) <==> id in Keys(cache) || Fetched(papers, id)
      {
        FetchedSnoc(papers, id);
      }
      if Wf(cache) {
        PutWf(before, last.shortId, Record(last));
      }
    }
  }

  lemma FetchedSnoc(papers: seq<ArxivPaper>, id: string)
    requires papers != []
    ensures Fetched(papers, id) <==> Fetched(papers[..|papers| - 1], id) || papers[|papers| - 1].shortId == id
  {
    var init := papers[..|papers| - 1];
    if Fetched(papers, id) && papers[|papers| - 1].shortId != id {
      var j :| 0 <= j < |papers| && papers[j].shortId == id;
      assert init[j] == papers[j];
    }
    if Fetched(init, id) {
      var j :| 0 <= j < |init| && init[j].shortId == id;
      assert papers[j] == init[j];
    }
  }

  /**
    `search_papers(topic, max_results)`, given what the arXiv client returned
    (`Err` when it raised) and how writing `papers_info.json` ended.
    The `papers` directory is created first; a folder name already taken by
    a plain file makes `os.makedirs` raise.
  */
  function Search(dir: PaperDir, topic: string, fetched: Result<seq<ArxivPaper>, string>, save: SaveOutcome): SearchStep {
    var base := dir.(present := true);
    match fetched
    case Err(e) => SearchStep(base, SearchFailed("Failed to search ArXiv: " + e, topic))
    case Ok(papers) =>
      var folder := NormalizeTopic(topic);
      var entry := Get(base.entries, folder);
      if entry == Some(PlainFile) then SearchStep(base, FolderBlocked(folder))
      else
        var created := if entry.None? then Put(base.entries, folder, Folder(NoCacheFile)) else base.entries;
        var merged := Merge(StoredPapers(entry), papers);
        var entries := match save
          case Written => Put(created, folder, Folder(Cached(merged)))
          case OpenFailed => created
          case WriteFailed => Put(created, folder, Folder(Unparsable));
        SearchStep(base.(entries := entries), SearchResult(topic, |papers|, MapSeq(Summarize, papers)))
  }

  method SearchPapers(dir: PaperDir, topic: string, fetched: Result<seq<ArxivPaper>, string>, save: SaveOutcome)
    returns (newDir: PaperDir, reply: SearchReply)
    ensures SearchStep(newDir, reply) == Search(dir, topic, fetched, save)
  {
    var base := dir.(present := true);
    if fetched.Err? {
      return base, SearchFailed("Failed to search ArXiv: " + fetched.error, topic);
    }
    var papers := fetched.value;
    var folder := NormalizeTopic(topic);
    var entry := Get(base.entries, folder);
    if entry == Some(PlainFile) {
      return base, FolderBlocked(folder);
    }
    var entries := base.entries;
    if entry.None? {
      entries := Put(entries, folder, Folder(NoCacheFile));
    }
    var papersInfo := StoredPapers(entry);
    var summaries: seq<PaperSummary> := [];
    for i := 0 to |papers|
      invariant papersInfo == Merge(StoredPapers(entry), papers[..i])
      invariant summaries == MapSeq(Summarize, papers[..i])
    {
      MergeStep(StoredPapers(entry), papers, i);
      MapSeqStep(Summarize, papers, i);
      papersInfo := Put(papersInfo, papers[i].shortId, Record(papers[i]));
      summaries := summaries + [Summarize(papers[i])];
    }
    assert papers[..|papers|] == papers;
    if save == Written {
      entries := Put(entries, folder, Folder(Cached(papersInfo)));
    } else if save == WriteFailed {
      entries := Put(entries, folder, Folder(Unparsable));
    }
    newDir := base.(entries := entries);
    reply := SearchResult(topic, |summaries|, summaries);
  }

  /** A failed arXiv search reports the error and the topic and touches no topic folder. */
  lemma SearchFailureKeepsCache(dir: PaperDir, topic: string, error: string, save: SaveOutcome)
    ensures var step := Search(dir, topic, Err(error), save);
      step.dir.entries == dir.entries && step.dir.present &&
      step.reply == SearchFailed("Failed to search ArXiv: " + error, topic)
  {
  }

  /**
    A successful search reports one summary per fetched paper, in order,
    each with at most the first three authors, while the stored record of
    each fetched id keeps all authors of the last paper with that id.
  */
  lemma SearchReplyFacts(dir: PaperDir, topic: string, papers: seq<ArxivPaper>, save: SaveOutcome)
    requires Get(dir.entries, NormalizeTopic(topic)) != Some(PlainFile)
    ensures var step := Search(dir, topic, Ok(papers), save);
      && step.reply.SearchResult?
      && step.reply.topic == topic
      && step.reply.count == |papers| == |step.reply.papers|
      && forall k :: 0 <= k < |papers| ==>
        && step.reply.papers[k].id == papers[k].shortId
        && step.reply.papers[k].authors == FirstAuthors(papers[k].authors)
  {
  }

  /** What a successful, saved search leaves in the topic's folder. */
  lemma SearchStoresMerge(dir: PaperDir, topic: string, papers: seq<ArxivPaper>)
    requires Get(dir.entries, NormalizeTopic(topic)) != Some(PlainFile)
    ensures var folder := NormalizeTopic(topic);
      var merged := Merge(StoredPapers(Get(dir.entries, folder)), papers);
      Get(Search(dir, topic, Ok(papers), Written).dir.entries, folder) == Some(Folder(Cached(merged)))
    ensures forall other :: other != NormalizeTopic(topic) ==>
      Get(Search(dir, topic, Ok(papers), Written).dir.entries, other) == Get(dir.entries, other)
  {
  }

  /**
    A save that fails leaves the reply as it is. When `open` failed, the
    folder keeps its old file (a new folder stays without one). When the
    write failed after `open`, the folder's file no longer parses.
  */
  lemma SearchSaveFailures(dir: PaperDir, topic: string, papers: seq<ArxivPaper>)
    requires Get(dir.entries, NormalizeTopic(topic)) != Some(PlainFile)
    ensures var folder := NormalizeTopic(topic);
      var before := Get(dir.entries, folder);
      && Get(Search(dir, topic, Ok(papers), OpenFailed).dir.entries, folder) ==
           (if before.None? then Some(Folder(NoCacheFile)) else before)
      && Get(Search(dir, topic, Ok(papers), WriteFailed).dir.entries, folder) == Some(Folder(Unparsable))
      && Search(dir, topic, Ok(papers), OpenFailed).reply == Search(dir, topic, Ok(papers), Written).reply
      && Search(dir, topic, Ok(papers), WriteFailed).reply == Search(dir, topic, Ok(papers), Written).reply
  {
  }

  /**
    Every fetched paper's full record (all authors included) is what the
    saved cache holds for its id; ids that were not fetched keep their
    stored record, and when the old file was missing or unparsable they
    are not there at all.
  */
  lemma SearchCacheContents(dir: PaperDir, topic: string, papers: seq<ArxivPaper>, id: string)
    requires Get(dir.entries, NormalizeTopic(topic)) != Some(PlainFile)
    ensures var entry := Get(dir.entries, NormalizeTopic(topic));
      var merged := Merge(StoredPapers(entry), papers);
      && (Fetched(papers, id) ==> Get(merged, id) == Some(Record(papers[LastIndex(papers, id)])))
      && (Fetched(papers, id) ==> Get(merged, id).value.authors == Some(papers[LastIndex(papers, id)].authors))
      && (!Fetched(papers, id) ==> Get(merged, id) == Get(StoredPapers(entry), id))
      && (entry.None? || entry == Some(Folder(NoCacheFile)) || entry == Some(Folder(Unparsable)) ==>
            (Get(merged, id).Some? <==> Fetched(papers, id)))
  {
    var entry := Get(dir.entries, NormalizeTopic(topic));
    MergeGet(StoredPapers(entry), papers, id);
  }

  // ---------------------------------------------------------------------------
  // extract_info
  // ---------------------------------------------------------------------------

  /** The JSON object `extract_info` returns: the stored record, or an error with an optional suggestion. */
  datatype ExtractReply = Found(record: PaperRecord) | Failed(error: string, suggestion: Option<string>)

  /** A folder entry whose cache file parses and holds the id. */
  predicate Holds(entry: Entry, id: string) {
    entry.Folder? && entry.cache.Cached? && id in Keys(entry.cache.papers)
  }

  /**
    The record of `id` in the first entry, in listing order, that holds it;
    plain files, folders without a cache file and unparsable files are
    passed over.
  */
  function FirstMatch(entries: Dict<string, Entry>, id: string): Option<PaperRecord>
    decreases |entries|
  {
    if entries == [] then None
    else if Holds(entries[0].1, id) then Get(entries[0].1.cache.papers, id)
    else FirstMatch(entries[1..], id)
  }

  /** `extract_info(paper_id)`. */
  function Extract(dir: PaperDir, id: string): ExtractReply {
    if !dir.present then
      Failed("No papers directory found. Please search for papers first using search_papers.", None)
    else
      match FirstMatch(dir.entries, id)
      case Some(record) => Found(record)
      case None => Failed("No information found for paper ID: " + id,
                          Some("Make sure to search for papers first using search_papers"))
  }

  method ExtractInfo(dir: PaperDir, id: string) returns (reply: ExtractReply)
    ensures reply == Extract(dir, id)
  {
    if !dir.present {
      return Failed("No papers directory found. Please search for papers first using search_papers.", None);
    }
    var entries := dir.entries;
    for i := 0 to |entries|
      invariant FirstMatch(entries, id) == FirstMatch(entries[i..], id)
    {
      assert entries[i..][1..] == entries[i + 1..];
      var (name, entry) := entries[i];
      if entry.Folder? && entry.cache.Cached? {
        var papersInfo := entry.cache.papers;
        if id in Keys(papersInfo) {
          return Found(Get(papersInfo, id).value);
        }
      }
    }
    return Failed("No information found for paper ID: " + id,
                  Some("Make sure to search for papers first using search_papers"));
  }

  /** The lookup answers with the record held by the first entry that holds the id. */
  lemma {:induction false} FirstMatchAt(entries: Dict<string, Entry>, id: string, i: nat)
    requires i < |entries| && Holds(entries[i].1, id)
    requires forall j :: 0 <= j < i ==> !Holds(entries[j].1, id)
    ensures FirstMatch(entries, id) == Get(entries[i].1.cache.papers, id)
    ensures FirstMatch(entries, id).Some?
    decreases i
  {
    if i > 0 {
      assert !Holds(entries[0].1, id);
      FirstMatchAt(entries[1..], id, i - 1);
    }
  }

  /** The lookup finds nothing exactly when no entry holds the id. */
  lemma {:induction false} FirstMatchNone(entries: Dict<string, Entry>, id: string)
    ensures FirstMatch(entries, id).None? <==> forall j :: 0 <= j < |entries| ==> !Holds(entries[j].1, id)
    decreases |entries|
  {
    if entries != [] {
      FirstMatchNone(entries[1..], id);
      assert forall j :: 1 <= j < |entries| ==> entries[j] == entries[1..][j - 1];
      if Holds(entries[0].1, id) {
        assert Get(entries[0].1.cache.papers, id).Some?;
      }
    }
  }

  /**
    In a directory whose only entry holding the id is `name`, the lookup
    answers with that entry's record.
  */
  lemma OnlyHolder(entries: Dict<string, Entry>, id: string, name: string)
    requires Wf(entries)
    requires Get(entries, name).Some? && Holds(Get(entries, name).value, id)
    requires forall other :: other != name && Get(entries, other).Some? ==> !Holds(Get(entries, other).value, id)
    ensures FirstMatch(entries, id) == Get(Get(entries, name).value.cache.papers, id)
  {
    GetIndex(entries, name);
    var i :| 0 <= i < |entries| && entries[i] == (name, Get(entries, name).value);
    forall j | 0 <= j < i
      ensures !Holds(entries[j].1, id)
    {
      assert Keys(entries)[j] != Keys(entries)[i];
      GetAt(entries, j);
    }
    FirstMatchAt(entries, id, i);
  }

  /**
    Search, then look up: once a saved search has fetched a paper, and no
    other folder holds its id, `extract_info` returns the fresh record.
  */
  lemma SearchThenExtract(dir: PaperDir, topic: string, papers: seq<ArxivPaper>, id: string)
    requires Wf(dir.entries)
    requires Get(dir.entries, NormalizeTopic(topic)) != Some(PlainFile)
    requires Fetched(papers, id)
    requires forall other :: other != NormalizeTopic(topic) && Get(dir.entries, other).Some? ==>
      !Holds(Get(dir.entries, other).value, id)
    ensures Extract(Search(dir, topic, Ok(papers), Written).dir, id) == Found(Record(papers[LastIndex(papers, id)]))
  {
    var folder := NormalizeTopic(topic);
    var entry := Get(dir.entries, folder);
    var created := if entry.None? then Put(dir.entries, folder, Folder(NoCacheFile)) else dir.entries;
    var merged := Merge(StoredPapers(entry), papers);
    var entries := Put(created, folder, Folder(Cached(merged)));
    assert Search(dir, topic, Ok(papers), Written).dir == PaperDir(true, entries);
    PutWf(dir.entries, folder, Folder(NoCacheFile));
    PutWf(created, folder, Folder(Cached(merged)));
    MergeGet(StoredPapers(entry), papers, id);
    assert Holds(Get(entries, folder).value, id);
    OnlyHolder(entries, id, folder);
  }

  // ---------------------------------------------------------------------------
  // get_available_folders
  // ---------------------------------------------------------------------------

  /** What `get_available_folders` returns: the empty list `[]` when there is no `papers` directory, else Markdown. */
  datatype FoldersReply = NoDirectory | Listing(text: string)

  /** `[name for name in os.listdir(PAPER_DIR) if os.path.isdir(...)]`. */
  function FolderNames(entries: Dict<string, Entry>): seq<string>
    decreases |entries|
  {
    if entries == [] then []
    else
      var last := entries[|entries| - 1];
      FolderNames(entries[..|entries| - 1]) + (if last.1.Folder? then [last.0] else [])
  }

  /** The listed names are exactly the names of the folder entries. */
  lemma {:induction false} FolderNamesExact(entries: Dict<string, Entry>, name: string)
    ensures name in FolderNames(entries) <==>
      exists i :: 0 <= i < |entries| && entries[i].0 == name && entries[i].1.Folder?
    decreases |entries|
  {
    if entries != [] {
      var init := entries[..|entries| - 1];
      FolderNamesExact(init, name);
      assert forall i :: 0 <= i < |init| ==> init[i] == entries[i];
    }
  }

  /** Folders are listed in directory order: listing two runs of entries lists the first run first. */
  lemma {:induction false} FolderNamesAppend(a: Dict<string, Entry>, b: Dict<string, Entry>)
    ensures FolderNames(a + b) == FolderNames(a) + FolderNames(b)
    decreases |b|
  {
    if b == [] {
      assert a + b == a;
    } else {
      var init := b[..|b| - 1];
      assert (a + b)[..|a + b| - 1] == a + init;
      FolderNamesAppend(a, init);
    }
  }

  const TopicsHeader := "# Available Topics\n\n"

  /** One line of the folder listing. */
  function BulletLine(folder: string): string {
    "- " + folder + "\n"
  }

  /** The Markdown listing of the given folders. */
  function FolderListing(folders: seq<string>): string {
    TopicsHeader + ConcatMap(BulletLine, folders) + ListingFooter(folders)
  }

  /** The line after the bullets: a note that there are none, or a hint naming the last folder. */
  function ListingFooter(folders: seq<string>): string {
    if folders == [] then "No folders found.\n"
    else "\nUse @" + folders[|folders| - 1] + " to access papers in that topic.\n"
  }

  /** `get_available_folders()`. */
  function Folders(dir: PaperDir): FoldersReply {
    if !dir.present then NoDirectory else Listing(FolderListing(FolderNames(dir.entries)))
  }

  method AvailableFolders(dir: PaperDir) returns (reply: FoldersReply)
    ensures reply == Folders(dir)
  {
    if !dir.present {
      return NoDirectory;
    }
    var content := RenderListing(FolderNames(dir.entries));
    return Listing(content);
  }

  /** The text `get_available_folders` builds from the folder names. */
  method RenderListing(folders: seq<string>) returns (content: string)
    ensures content == FolderListing(folders)
  {
    content := TopicsHeader;
    if folders != [] {
      var folder := "";
      for i := 0 to |folders|
        invariant content == TopicsHeader + ConcatMap(BulletLine, folders[..i])
        invariant i > 0 ==> folder == folders[i - 1]
      {
        folder := folders[i];
        ConcatMapStep(BulletLine, folders, i);
        AppendAssoc(TopicsHeader, ConcatMap(BulletLine, folders[..i]), BulletLine(folder));
        content := content + BulletLine(folder);
      }
      assert folders[..|folders|] == folders;
      content := content + ("\nUse @" + folder + " to access papers in that topic.\n");
    } else {
      assert content == TopicsHeader + ConcatMap(BulletLine, folders);
      content := content + "No folders found.\n";
    }
  }

  /**
    Every folder has its own line, in order: the line of the folder at
    position `i` stands right after the header and the lines of the folders
    before it.
  */
  lemma FolderLineAt(folders: seq<string>, i: nat)
    requires i < |folders|
    ensures var line := "- " + folders[i] + "\n";
      var at := |TopicsHeader| + |ConcatMap(BulletLine, folders[..i])|;
      at + |line| <= |FolderListing(folders)| && FolderListing(folders)[at..at + |line|] == line
  {
    var line := "- " + folders[i] + "\n";
    assert folders == folders[..i] + [folders[i]] + folders[i + 1..];
    ConcatMapAppend(BulletLine, folders[..i] + [folders[i]], folders[i + 1..]);
    ConcatMapAppend(BulletLine, folders[..i], [folders[i]]);
    assert ConcatMap(BulletLine, [folders[i]]) == line by {
      assert [folders[i]][..0] == [];
    }
    var before, after := ConcatMap(BulletLine, folders[..i]), ConcatMap(BulletLine, folders[i + 1..]);
    Regroup(TopicsHeader, before, line, after, ListingFooter(folders));
    MiddleSlice(TopicsHeader + before, line, after + ListingFooter(folders));
  }

  /** A search that gets past the arXiv call leaves its topic's folder in the listing. */
  lemma SearchThenListed(dir: PaperDir, topic: string, papers: seq<ArxivPaper>, save: SaveOutcome)
    requires Get(dir.entries, NormalizeTopic(topic)) != Some(PlainFile)
    ensures var after := Search(dir, topic, Ok(papers), save).dir;
      after.present && NormalizeTopic(topic) in FolderNames(after.entries)
  {
    var folder := NormalizeTopic(topic);
    var entries := Search(dir, topic, Ok(papers), save).dir.entries;
    assert Get(entries, folder).Some? && Get(entries, folder).value.Folder?;
    GetIndex(entries, folder);
    FolderNamesExact(entries, folder);
  }

  // ---------------------------------------------------------------------------
  // get_papers_in_topic
  // ---------------------------------------------------------------------------

  /** `', '.join(authors) if authors else 'Unknown'`. */
  function AuthorsText(authors: seq<string>): string {
    if authors == [] then "Unknown" else Join(", ", authors)
  }

  // The lines of a paper's section, one function per line the renderer appends.

  function TitleLine(title: string): string {
    "## " + title + "\n"
  }

  function IdLine(id: string): string {
    "- **Paper ID**: " + id + "\n"
  }

  function AuthorsLine(authors: seq<string>): string {
    "- **Authors**: " + AuthorsText(authors) + "\n"
  }

  function PublishedLine(published: string): string {
    "- **Published**: " + published + "\n"
  }

  function UrlLine(pdfUrl: string): string {
    "- **PDF URL**: [" + pdfUrl + "](" + pdfUrl + ")\n\n"
  }

  function SummaryLine(summary: string): string {
    "### Summary\n" + Take(summary, 500) + "...\n\n"
  }

  /** The Markdown section of one stored paper, with the defaults for missing fields. */
  function Section(id: string, info: PaperRecord): string {
    TitleLine(info.title.GetOr("Unknown Title"))
    + IdLine(id)
    + AuthorsLine(info.authors.GetOr([]))
    + PublishedLine(info.published.GetOr("Unknown Date"))
    + UrlLine(info.pdfUrl.GetOr("#"))
    + SummaryLine(info.summary.GetOr("No summary available"))
  }

  function SectionOf(paper: (string, PaperRecord)): string {
    Section(paper.0, paper.1)
  }

  /** One section per stored paper, in the map's order. */
  function Sections(papers: Dict<string, PaperRecord>): string {
    ConcatMap(SectionOf, papers)
  }

  lemma AppendSix(s: string, a: string, b: string, c: string, d: string, e: string, f: string)
    ensures s + a + b + c + d + e + f == s + (a + b + c + d + e + f)
  {
  }

  /** `get_papers_in_topic(topic)`: the topic as given is echoed, its normalisation picks the folder. */
  function TopicPage(dir: PaperDir, topic: string): string {
    var entry: Option<Entry> := if dir.present then Get(dir.entries, NormalizeTopic(topic)) else None;
    match entry
    case Some(Folder(Cached(papers))) => "# Papers in Topic: " + topic + "\n\n" + Sections(papers)
    case Some(Folder(Unparsable)) => "Error reading papers for topic: " + topic + "."
    case _ => "No papers found for topic: " + topic + ". Please ensure the topic exists."
  }

  /** The body of the rendering loop: the six `content +=` lines for one paper. */
  method AppendSection(before: string, paperId: string, paperInfo: PaperRecord) returns (content: string)
    ensures content == before + Section(paperId, paperInfo)
  {
    var title := paperInfo.title.GetOr("Unknown Title");
    var authors := paperInfo.authors.GetOr([]);
    var published := paperInfo.published.GetOr("Unknown Date");
    var pdfUrl := paperInfo.pdfUrl.GetOr("#");
    var summary := paperInfo.summary.GetOr("No summary available");
    content := before + TitleLine(title);
    content := content + IdLine(paperId);
    content := content + AuthorsLine(authors);
    content := content + PublishedLine(published);
    content := content + UrlLine(pdfUrl);
    content := content + SummaryLine(summary);
    AppendSix(before, TitleLine(title), IdLine(paperId), AuthorsLine(authors),
      PublishedLine(published), UrlLine(pdfUrl), SummaryLine(summary));
  }

  method PapersInTopic(dir: PaperDir, topic: string) returns (content: string)
    ensures content == TopicPage(dir, topic)
  {
    var topicPath := NormalizeTopic(topic);
    var entry: Option<Entry> := if dir.present then Get(dir.entries, topicPath) else None;
    if !(entry.Some? && entry.value.Folder? && !entry.value.cache.NoCacheFile?) {
      return "No papers found for topic: " + topic + ". Please ensure the topic exists.";
    }
    if entry.value.cache.Unparsable? {
      return "Error reading papers for topic: " + topic + ".";
    }
    content := RenderPapers("# Papers in Topic: " + topic + "\n\n", entry.value.cache.papers);
  }

  /** `for paper_id, paper_info in papers_info.items(): ...`, appending to `header`. */
  method RenderPapers(header: string, papersInfo: Dict<string, PaperRecord>) returns (content: string)
    ensures content == header + Sections(papersInfo)
  {
    content := header;
    for i := 0 to |papersInfo|
      invariant content == header + Sections(papersInfo[..i])
    {
      var (paperId, paperInfo) := papersInfo[i];
      AppendAssoc(header, Sections(papersInfo[..i]), Section(paperId, paperInfo));
      content := AppendSection(content, paperId, paperInfo);
      ConcatMapStep(SectionOf, papersInfo, i);
    }
    assert papersInfo[..|papersInfo|] == papersInfo;
  }

  /** The page holds one section per stored paper: the sections of two runs of papers follow each other. */
  lemma SectionsAppend(a: Dict<string, PaperRecord>, b: Dict<string, PaperRecord>)
    ensures Sections(a + b) == Sections(a) + Sections(b)
  {
    ConcatMapAppend(SectionOf, a, b);
  }

  /** A record with no fields renders every default, line by line. */
  lemma SectionDefaults(id: string)
    ensures Section(id, PaperRecord(None, None, None, None, None)) ==
      "## Unknown Title\n"
      + ("- **Paper ID**: " + id + "\n")
      + "- **Authors**: Unknown\n"
      + "- **Published**: Unknown Date\n"
      + "- **PDF URL**: [#](#)\n\n"
      + "### Summary\nNo summary available...\n\n"
  {
    DefaultTitleLine();
    DefaultAuthorsLine();
    DefaultPublishedLine();
    DefaultUrlLine();
    DefaultSummaryLine();
  }

  lemma DefaultTitleLine()
    ensures TitleLine("Unknown Title") == "## Unknown Title\n"
  {
  }

  lemma DefaultAuthorsLine()
    ensures AuthorsLine([]) == "- **Authors**: Unknown\n"
  {
  }

  lemma DefaultPublishedLine()
    ensures PublishedLine("Unknown Date") == "- **Published**: Unknown Date\n"
  {
  }

  lemma DefaultUrlLine()
    ensures UrlLine("#") == "- **PDF URL**: [#](#)\n\n"
  {
  }

  lemma DefaultSummaryLine()
    ensures SummaryLine("No summary available") == "### Summary\nNo summary available...\n\n"
  {
  }

  /** The section ends with exactly the first 500 characters of the summary (all of a shorter one), then `...`. */
  lemma SectionSummary(id: string, info: PaperRecord, summary: string)
    requires info.summary == Some(summary)
    ensures var text, cut := Section(id, info), Take(summary, 500);
      && |cut| == (if |summary| <= 500 then |summary| else 500) && cut == summary[..|cut|]
      && |"### Summary\n" + cut + "...\n\n"| <= |text|
      && text[|text| - |"### Summary\n" + cut + "...\n\n"|..] == "### Summary\n" + cut + "...\n\n"
  {
    var text := Section(id, info);
    assert text[|text| - |SummaryLine(summary)|..] == SummaryLine(summary);
  }

  /** Only a parsed cache file gives a page that starts with the topic heading. */
  lemma TopicPageHeading(dir: PaperDir, topic: string)
    ensures var entry: Option<Entry> := if dir.present then Get(dir.entries, NormalizeTopic(topic)) else None;
      var heading := "# Papers in Topic: " + topic;
      (heading <= TopicPage(dir, topic)) <==> entry.Some? && entry.value.Folder? && entry.value.cache.Cached?
  {
    var entry: Option<Entry> := if dir.present then Get(dir.entries, NormalizeTopic(topic)) else None;
    var heading := "# Papers in Topic: " + topic;
    HeadOfConcat("# Papers in Topic: ", topic, []);
    match entry
    case Some(Folder(Cached(papers))) =>
      PrefixOfConcat(heading, "\n\n", Sections(papers));
    case Some(Folder(Unparsable)) =>
      HeadOfConcat("Error reading papers for topic: ", topic, ".");
    case _ =>
      HeadOfConcat("No papers found for topic: ", topic, ". Please ensure the topic exists.");
  }

  /**
    Search, then read: after a saved search, the page of any spelling of the
    topic that names the same folder lists the merged cache.
  */
  lemma SearchThenRead(dir: PaperDir, topic: string, spelling: string, papers: seq<ArxivPaper>)
    requires Get(dir.entries, NormalizeTopic(topic)) != Some(PlainFile)
    requires NormalizeTopic(spelling) == NormalizeTopic(topic)
    ensures var merged := Merge(StoredPapers(Get(dir.entries, NormalizeTopic(topic))), papers);
      TopicPage(Search(dir, topic, Ok(papers), Written).dir, spelling) ==
        "# Papers in Topic: " + spelling + "\n\n" + Sections(merged)
  {
    SearchStoresMerge(dir, topic, papers);
  }

  // ---------------------------------------------------------------------------
  // get_search_prompt
  // ---------------------------------------------------------------------------

  /** The default `num_papers` of `get_search_prompt`. */
  const DefaultPromptPapers := 5

  /** The fixed text of a prompt, between the places where the count and the topic are filled in. */
  datatype PromptTemplate = PromptTemplate(
    opening: string,
    about: string,
    steps: string,
    maxResults: string,
    gather: string,
    synthesis: string,
    closing: string)

  /** The text of `get_search_prompt`. */
  const SearchTemplate := PromptTemplate(
    "Search for ",
    " academic papers about '",
    "' using the search_papers tool. Follow these instructions:\n"
    + "    1. First, search for papers using search_papers(topic='",
    "', max_results=",
    ")\n"
    + "    2. For each paper found, extract and organize the following information:\n"
    + "       - Paper title\n"
    + "       - Authors\n"
    + "       - Publication date\n"
    + "       - Brief summary of the key findings\n"
    + "       - Main contributions or innovations\n"
    + "       - Methodologies used\n"
    + "       - Relevance to the topic '",
    "'\n"
    + "    \n"
    + "    3. Provide a comprehensive summary that includes:\n"
    + "       - Overview of the current state of research in '",
    "'\n"
    + "       - Common themes and trends across the papers\n"
    + "       - Key research gaps or areas for future investigation\n"
    + "       - Most impactful or influential papers in this area\n"
    + "    \n"
    + "    4. Organize your findings in a clear, structured format with headings and bullet points for easy readability.\n"
    + "    \n"
    + "    Please present both detailed information about each paper and a high-level synthesis of the research landscape in ")

  /** The template with the count `n` filled in twice and the topic five times. */
  function Fill(template: PromptTemplate, topic: string, n: string): string {
    template.opening + n + template.about + topic + FillTail(template, topic, n)
  }

  /** The prompt from the quote that closes the first mention of the topic. */
  function FillTail(template: PromptTemplate, topic: string, n: string): string {
    template.steps + topic + template.maxResults + n + template.gather + topic + template.synthesis + topic
    + template.closing + topic + "."
  }

  /** `get_search_prompt(topic, num_papers)`. */
  function SearchPrompt(topic: string, numPapers: int): string {
    Fill(SearchTemplate, topic, IntToString(numPapers))
  }

  /** The position of the first space in `s`, or `|s|` when there is none. */
  function FirstSpace(s: string): (i: nat)
    ensures i <= |s|
    decreases |s|
  {
    if s == [] || s[0] == ' ' then 0 else 1 + FirstSpace(s[1..])
  }

  lemma {:induction false} FirstSpaceAfter(word: string, rest: string)
    requires forall k :: 0 <= k < |word| ==> word[k] != ' '
    ensures FirstSpace(word + rest) == |word| || (rest != [] && rest[0] != ' ' && FirstSpace(word + rest) > |word|)
    ensures rest != [] && rest[0] == ' ' ==> FirstSpace(word + rest) == |word|
    decreases |word|
  {
    if word != [] {
      assert (word + rest)[1..] == word[1..] + rest;
      FirstSpaceAfter(word[1..], rest);
    } else {
      assert word + rest == rest;
    }
  }

  /** A word without spaces, put between a fixed opening and text that starts with a space, can be read back. */
  lemma SpaceDelimited(opening: string, word1: string, rest1: string, word2: string, rest2: string)
    requires opening + word1 + rest1 == opening + word2 + rest2
    requires forall k :: 0 <= k < |word1| ==> word1[k] != ' '
    requires forall k :: 0 <= k < |word2| ==> word2[k] != ' '
    requires rest1 != [] && rest1[0] == ' ' && rest2 != [] && rest2[0] == ' '
    ensures word1 == word2
  {
    var p := opening + word1 + rest1;
    assert p[|opening|..] == word1 + rest1 == word2 + rest2;
    FirstSpaceAfter(word1, rest1);
    FirstSpaceAfter(word2, rest2);
    assert word1 == (word1 + rest1)[..|word1|] == (word2 + rest2)[..|word2|] == word2;
  }

  /** The shape of the prompt's beginning: the count ends where the fixed text after it begins. */
  lemma OpeningDelimited(opening: string, word1: string, about: string, topic1: string, tail1: string,
                         word2: string, topic2: string, tail2: string)
    requires opening + word1 + about + topic1 + tail1 == opening + word2 + about + topic2 + tail2
    requires forall k :: 0 <= k < |word1| ==> word1[k] != ' '
    requires forall k :: 0 <= k < |word2| ==> word2[k] != ' '
    requires about != [] && about[0] == ' '
    ensures word1 == word2
  {
    var rest1 := about + topic1 + tail1;
    var rest2 := about + topic2 + tail2;
    AppendAssoc(opening + word1, about, topic1);
    AppendAssoc(opening + word1, about + topic1, tail1);
    AppendAssoc(opening + word2, about, topic2);
    AppendAssoc(opening + word2, about + topic2, tail2);
    assert rest1[0] == about[0];
    assert rest2[0] == about[0];
    SpaceDelimited(opening, word1, rest1, word2, rest2);
  }

  /** The topic is filled in five times and the count twice, so the prompt's length fixes the topic's. */
  lemma FillTailLength(template: PromptTemplate, topic: string, n: string)
    ensures |FillTail(template, topic, n)| ==
      |template.steps| + |template.maxResults| + |template.gather| + |template.synthesis| + |template.closing| + 1
      + 4 * |topic| + |n|
  {
  }

  /** Two texts that agree, with a part of equal length at the same place, agree on that part. */
  lemma SamePlace(prefix: string, part1: string, tail1: string, part2: string, tail2: string)
    requires prefix + part1 + tail1 == prefix + part2 + tail2
    requires |part1| == |part2|
    ensures part1 == part2
  {
    var p := prefix + part1 + tail1;
    assert part1 == p[|prefix|..|prefix| + |part1|];
    assert part2 == (prefix + part2 + tail2)[|prefix|..|prefix| + |part2|];
  }

  /**
    Two equal texts built as `prefix + part + tail`, where each tail is as
    long as a fixed base plus four times its part, have the same part.
  */
  lemma LengthFixesPart(prefix: string, part1: string, tail1: string, part2: string, tail2: string, base: nat)
    requires prefix + part1 + tail1 == prefix + part2 + tail2
    requires |tail1| == base + 4 * |part1| && |tail2| == base + 4 * |part2|
    ensures part1 == part2
  {
    assert |prefix + part1 + tail1| == |prefix| + base + 5 * |part1|;
    assert |prefix + part2 + tail2| == |prefix| + base + 5 * |part2|;
    SamePlace(prefix, part1, tail1, part2, tail2);
  }

  /**
    A template whose text after the count starts with a space can be read
    back: the count ends at the first space after the opening, and since
    the topic is filled in five times, the length fixes the topic's length.
  */
  lemma FillInjective(template: PromptTemplate, topic1: string, n1: string, topic2: string, n2: string)
    requires Fill(template, topic1, n1) == Fill(template, topic2, n2)
    requires ' ' !in n1 && ' ' !in n2
    requires template.about != [] && template.about[0] == ' '
    ensures n1 == n2 && topic1 == topic2
  {
    var tail1, tail2 := FillTail(template, topic1, n1), FillTail(template, topic2, n2);
    OpeningDelimited(template.opening, n1, template.about, topic1, tail1, n2, topic2, tail2);
    FillTailLength(template, topic1, n1);
    FillTailLength(template, topic2, n2);
    var base := |template.steps| + |template.maxResults| + |template.gather| + |template.synthesis|
      + |template.closing| + 1 + |n1|;
    LengthFixesPart(template.opening + n1 + template.about, topic1, tail1, topic2, tail2, base);
  }

  /** In `get_search_prompt` the count is followed by a space. */
  lemma SearchTemplateAbout()
    ensures SearchTemplate.about != [] && SearchTemplate.about[0] == ' '
  {
  }

  /** Different topics or paper counts give different prompts. */
  lemma SearchPromptInjective(topic1: string, num1: int, topic2: string, num2: int)
    requires SearchPrompt(topic1, num1) == SearchPrompt(topic2, num2)
    ensures topic1 == topic2 && num1 == num2
  {
    SearchTemplateAbout();
    IntToStringNoSpace(num1);
    IntToStringNoSpace(num2);
    FillInjective(SearchTemplate, topic1, IntToString(num1), topic2, IntToString(num2));
    IntToStringInjective(num1, num2);
  }
}
