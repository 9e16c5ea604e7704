/**
 * The Papers-with-Code connector. Each record of the links-between-papers-
 * and-code dump becomes a Paper, with its title, PDF link and arXiv
 * identifier, related to a Repository for its code. The Repository goes to
 * the code graph and the Paper to the paper graph. The two graphs are then
 * written to their files when not empty.
 *
 * The dump is given as a sequence of records (the JSON file is not read
 * here), `create_uri` is a parameter `mint`, and the two `datetime.now()`
 * reads of the source object are parameters.
 */
module PaperWithCode {
  import opened Wrappers
  import opened Rdf
  import opened Utilities
  import E = Entities
  import K = Knowledge

  const PAPER_WITH_CODE_URL := "http://paperwithcode.com/"
  /** `kg.CONSTANTS.ARXIV`: an arXiv identifier is this followed by the id. */
  const ARXIV := "https://arxiv.org/abs/"
  const PAPER_FILE := "data/rdf/paper/paper_with_code_Papers.ttl"
  const CODE_FILE := "data/rdf/software/paper_with_code_Code.ttl"

  /** One record of the dump: the keys the connector reads, each nullable, as options. */
  datatype Record = Record(paperUrl: Option<string>, title: Option<string>, pdf: Option<string>,
                           arxivId: Option<string>, repoUrl: Option<string>)

  // ---------------------------------------------------------------------
  // One record

  /**
   * A URI sanitizer: `sanitize_uri`, which gives None when the text does
   * not start with a scheme. The run-level definitions take it as a value,
   * and `ProcessPaperWithCode` applies them to `Utilities.SanitizeUri`.
   */
  type Sanitizer = string -> Option<string>

  /**
   * `create_uri(sanitize_uri(paper_url))` raises a TypeError when
   * `paper_url` is null or `sanitize_uri` gives None (a regex then runs on
   * None), and so does `create_uri(repo_url)` when `repo_url` is null; a
   * record is usable when neither raises.
   */
  predicate Usable(rec: Record, clean: Sanitizer)
  {
    rec.paperUrl.Some? && clean(rec.paperUrl.value).Some? && rec.repoUrl.Some?
  }

  /** The repository URL of a record; the loop stops at the first record without one. */
  function RepoUrlOf(rec: Record): string
  {
    if rec.repoUrl.Some? then rec.repoUrl.value else ""
  }

  /** The paper's title: `sanitize(paper_title)`, or the empty string for a null title. */
  function TitleOf(rec: Record): string
  {
    if rec.title.Some? then Sanitize(rec.title.value) else ""
  }

  /**
   * A null title gives the empty string; a given one loses its escape
   * sequences, is never longer, and is kept as it is when it has no
   * backslash.
   */
  lemma TitleOfMeaning(rec: Record)
    ensures rec.title == None ==> TitleOf(rec) == ""
    ensures rec.title.Some? ==> |TitleOf(rec)| <= |rec.title.value|
    ensures rec.title.Some? && (forall i :: 0 <= i < |rec.title.value| ==> rec.title.value[i] != '\\') ==>
      TitleOf(rec) == rec.title.value
  {
    if rec.title.Some? {
      SanitizeUnchangedIff(rec.title.value);
    }
  }

  /** The blank nodes a record draws: paper URI, arXiv identifier when given, repository URI. */
  function RecordBlanks(rec: Record): nat
  {
    if rec.arxivId.Some? then 3 else 2
  }

  /** The record's Repository, on `create_uri(repo_url)` with the record's last blank. */
  function RepoOf(rec: Record, src: E.SourceData, b: nat, mint: Minter): E.Entity
  {
    E.NewRepository(src, mint(RepoUrlOf(rec), b + RecordBlanks(rec) - 1))
  }

  /** The arXiv identifier the record adds, when it has an arXiv id. */
  function ArxivOf(rec: Record, src: E.SourceData, b: nat, mint: Minter): set<E.Entity>
  {
    if rec.arxivId.Some? then {E.NewIdentifier(src, mint(ARXIV + rec.arxivId.value, b + 1))} else {}
  }

  /** A paper `e` titled with the record's title and given its PDF link when it has one. */
  function Titled(e: E.Entity, rec: Record): E.Entity
    requires e.Paper?
  {
    E.Paper(e.uri, e.comments, e.labelText, e.source, e.retrievedFrom, e.related,
            e.abstractText, e.license, e.keywords, e.created, e.modified, e.version,
            e.referencedBy, e.identifiers, Some(TitleOf(rec)), e.authors, e.publicationDate, e.venue,
            e.doi, e.relatedWorks, e.citations, e.repositories,
            if rec.pdf.Some? then e.downloadUrls + {rec.pdf.value} else e.downloadUrls)
  }

  /** A paper `e` with the identifiers `ids`. */
  function Identified(e: E.Entity, ids: set<E.Entity>): E.Entity
    requires e.Paper?
  {
    E.Paper(e.uri, e.comments, e.labelText, e.source, e.retrievedFrom, e.related,
            e.abstractText, e.license, e.keywords, e.created, e.modified, e.version,
            e.referencedBy, ids, e.title, e.authors, e.publicationDate, e.venue,
            e.doi, e.relatedWorks, e.citations, e.repositories, e.downloadUrls)
  }

  /** A paper `e` with `r` appended to its related resources. */
  function Related(e: E.Entity, r: E.Entity): E.Entity
    requires e.Paper?
  {
    E.Paper(e.uri, e.comments, e.labelText, e.source, e.retrievedFrom, e.related + [r],
            e.abstractText, e.license, e.keywords, e.created, e.modified, e.version,
            e.referencedBy, e.identifiers, e.title, e.authors, e.publicationDate, e.venue,
            e.doi, e.relatedWorks, e.citations, e.repositories, e.downloadUrls)
  }

  /**
   * The record's Paper before its Repository is related to it: a new Paper
   * on `create_uri` of the sanitized paper URL, titled, with the PDF link
   * and arXiv identifier when given.
   */
  function Unrelated(rec: Record, uri: string, src: E.SourceData, b: nat, mint: Minter): E.Entity
  {
    Identified(Titled(E.NewPaper(src, mint(uri, b)), rec), ArxivOf(rec, src, b, mint))
  }

  /** The record's Paper: `Unrelated`, related to the record's Repository. */
  function PaperOf(rec: Record, uri: string, src: E.SourceData, b: nat, mint: Minter): E.Entity
  {
    Related(Unrelated(rec, uri, src, b, mint), RepoOf(rec, src, b, mint))
  }

  /** The Repository of a record is on its last blank `r`. */
  lemma RepoOn(rec: Record, src: E.SourceData, b: nat, r: nat, mint: Minter)
    requires r == b + RecordBlanks(rec) - 1
    ensures RepoOf(rec, src, b, mint) == E.NewRepository(src, mint(RepoUrlOf(rec), r))
  {
  }

  /** The Paper of a record is its unrelated Paper related to its Repository. */
  lemma PaperFrom(rec: Record, uri: string, src: E.SourceData, b: nat, mint: Minter, unrelated: E.Entity, repository: E.Entity)
    requires unrelated == Unrelated(rec, uri, src, b, mint) && repository == RepoOf(rec, src, b, mint)
    ensures unrelated.Paper? && PaperOf(rec, uri, src, b, mint) == Related(unrelated, repository)
  {
  }

  /**
   * The paper of a usable record is titled, links its PDF exactly when the
   * record has one and its arXiv identifier exactly when the record has
   * one, and its projection holds the projection of its Repository.
   */
  lemma PaperOfMeaning(rec: Record, uri: string, src: E.SourceData, b: nat, mint: Minter)
    ensures var p := PaperOf(rec, uri, src, b, mint);
      && p.title == Some(TitleOf(rec))
      && (p.downloadUrls != {} <==> rec.pdf.Some?)
      && (rec.pdf.Some? ==> (p.uri, DCAT_DOWNLOAD_URL, Str(rec.pdf.value)) in E.Triples(p))
      && (p.identifiers != {} <==> rec.arxivId.Some?)
      && (rec.arxivId.Some? ==> E.NewIdentifier(src, mint(ARXIV + rec.arxivId.value, b + 1)) in p.identifiers)
      && p.related == [RepoOf(rec, src, b, mint)]
      && E.Triples(RepoOf(rec, src, b, mint)) <= E.Triples(p)
  {
    var p := PaperOf(rec, uri, src, b, mint);
    var u := mint(uri, b);
    var pdfs := if rec.pdf.Some? then {rec.pdf.value} else {};
    assert p == E.Paper(u, {}, Text(u), src, None, [RepoOf(rec, src, b, mint)], None, None, {}, None, None, None, {},
                        ArxivOf(rec, src, b, mint), Some(TitleOf(rec)), {}, None, None, None, {}, {}, {}, pdfs);
    E.ChildTriples(p, RepoOf(rec, src, b, mint));
    if rec.pdf.Some? {
      E.TriplesSplit(p);
      assert (p.uri, DCAT_DOWNLOAD_URL, Str(rec.pdf.value)) in E.KindOwn(p);
    }
  }

  /** `set_title` and, when the record has one, `add_download_url` on the paper `e` built so far. */
  method TitleAndPdf(paper: K.Paper, rec: Record, ghost e: E.Entity)
    requires e.Paper? && paper.Build() == e
    modifies paper`title, paper`downloadUrls
    ensures paper.Build() == Titled(e, rec)
  {
    var title := "";
    if rec.title.Some? {
      title := Sanitize(rec.title.value);
    }
    paper.SetTitle(title);
    if rec.pdf.Some? {
      paper.AddDownloadUrl(rec.pdf.value);
    }
  }

  /**
   * `add_identifier` of the arXiv identifier on the paper `e` built so far,
   * when the record has an arXiv id; `b` is the paper's own blank.
   */
  method AddArxiv(paper: K.Paper, rec: Record, src: K.Source, blanks: BlankNodes, mint: Minter,
                  ghost sd: E.SourceData, ghost b: nat, ghost e: E.Entity)
    requires src.Build() == sd && blanks.next == b + 1
    requires e.Paper? && e.identifiers == {} && paper.Build() == e
    modifies paper.resource`identifiers, blanks
    ensures paper.Build() == Identified(e, ArxivOf(rec, sd, b, mint))
    ensures blanks.next == b + RecordBlanks(rec) - 1
  {
    if rec.arxivId.Some? {
      var a := blanks.Fresh();
      var arxiv := new K.UniqueIdentifier(src, mint(ARXIV + rec.arxivId.value, a));
      paper.resource.AddIdentifier(arxiv.Build());
    }
  }

  /** `Paper.Builder(source, paper_uri)` with the title, PDF link and arXiv identifier set. */
  method NewRecordPaper(rec: Record, paperUri: string, src: K.Source, blanks: BlankNodes, mint: Minter, ghost sd: E.SourceData)
    returns (paper: K.Paper)
    requires src.Build() == sd
    modifies blanks
    ensures fresh(paper) && fresh(paper.thing) && fresh(paper.resource)
    ensures paper.Build() == Unrelated(rec, paperUri, sd, old(blanks.next), mint)
    ensures blanks.next == old(blanks.next) + RecordBlanks(rec) - 1
  {
    var b := blanks.Fresh();
    paper := new K.Paper(src, mint(paperUri, b));
    ghost var e0 := paper.Build();
    TitleAndPdf(paper, rec, e0);
    AddArxiv(paper, rec, src, blanks, mint, sd, b, Titled(e0, rec));
  }

  /** `add_related` of the repository `r` on the paper `e` built so far. */
  method RelateRepository(paper: K.Paper, r: E.Entity, ghost e: E.Entity)
    requires e.Paper? && paper.Build() == e
    modifies paper.thing`related
    ensures paper.Build() == Related(e, r)
  {
    paper.thing.AddRelated(r);
  }

  /** `paper.to_rdf(graph)` for the paper built as `e`. */
  method ProjectPaper(paper: K.Paper, g: Graph, ghost e: E.Entity)
    requires paper.Build() == e
    modifies g`triples
    ensures g.triples == old(g.triples) + Projected([e], E.Triples)
  {
    paper.ToRdf(g);
    ProjectedOne(e, E.Triples);
  }

  /** `repo.to_rdf(graph)` for the repository built as `e`. */
  method ProjectRepository(repo: K.Repository, g: Graph, ghost e: E.Entity)
    requires repo.Build() == e
    modifies g`triples
    ensures g.triples == old(g.triples) + Projected([e], E.Triples)
  {
    repo.ToRdf(g);
    ProjectedOne(e, E.Triples);
  }

  /**
   * The objects of a usable record, whose first blank is `b`: its Paper,
   * and its Repository, which is related to the Paper.
   */
  method BuildRecord(rec: Record, paperUri: string, src: K.Source, blanks: BlankNodes, mint: Minter,
                     ghost sd: E.SourceData, ghost b: nat)
    returns (paper: K.Paper, repo: K.Repository)
    requires src.Build() == sd && blanks.next == b && rec.repoUrl.Some?
    modifies blanks
    ensures paper.Build() == PaperOf(rec, paperUri, sd, b, mint)
    ensures repo.Build() == RepoOf(rec, sd, b, mint)
    ensures blanks.next == b + RecordBlanks(rec)
  {
    paper := NewRecordPaper(rec, paperUri, src, blanks, mint, sd);
    ghost var unrelated := paper.Build();
    var r := blanks.Fresh();
    repo := new K.Repository(src, mint(rec.repoUrl.value, r));
    var repository := repo.Build();
    RepoOn(rec, sd, b, r, mint);
    PaperFrom(rec, paperUri, sd, b, mint, unrelated, repository);
    RelateRepository(paper, repository, unrelated);
  }

  /**
   * The loop body for a usable record, whose first blank is `b`: the
   * Repository is projected into the code graph and the Paper into the
   * paper graph.
   */
  method ProcessRecord(rec: Record, paperUri: string, src: K.Source, paperGraph: Graph, codeGraph: Graph,
                       blanks: BlankNodes, mint: Minter, ghost sd: E.SourceData, ghost b: nat,
                       ghost papers: set<Triple>, ghost code: set<Triple>)
    requires src.Build() == sd && rec.repoUrl.Some?
    requires paperGraph != codeGraph && blanks.next == b
    requires paperGraph.triples == papers && codeGraph.triples == code
    modifies paperGraph`triples, codeGraph`triples, blanks
    ensures paperGraph.triples == papers + Projected([PaperOf(rec, paperUri, sd, b, mint)], E.Triples)
    ensures codeGraph.triples == code + Projected([RepoOf(rec, sd, b, mint)], E.Triples)
    ensures blanks.next == b + RecordBlanks(rec)
  {
    var paper, repo := BuildRecord(rec, paperUri, src, blanks, mint, sd, b);
    ProjectRecord(paper, repo, paperGraph, codeGraph, PaperOf(rec, paperUri, sd, b, mint), RepoOf(rec, sd, b, mint), papers, code);
  }

  /** `repo.to_rdf(code_graph)`, then `paper.to_rdf(paper_graph)`, for the two built as `p` and `r`. */
  method ProjectRecord(paper: K.Paper, repo: K.Repository, paperGraph: Graph, codeGraph: Graph,
                       ghost p: E.Entity, ghost r: E.Entity, ghost papers: set<Triple>, ghost code: set<Triple>)
    requires paper.Build() == p && repo.Build() == r
    requires paperGraph != codeGraph && paperGraph.triples == papers && codeGraph.triples == code
    modifies paperGraph`triples, codeGraph`triples
    ensures paperGraph.triples == papers + Projected([p], E.Triples)
    ensures codeGraph.triples == code + Projected([r], E.Triples)
  {
    ProjectRepository(repo, codeGraph, r);
    ProjectPaper(paper, paperGraph, p);
  }

  // ---------------------------------------------------------------------
  // The dump

  /** The number of records before the first unusable one: the records the loop gets through. */
  function Good(records: seq<Record>, clean: Sanitizer): (n: nat)
    ensures n <= |records|
    ensures forall i :: 0 <= i < n ==> Usable(records[i], clean)
    ensures n < |records| ==> !Usable(records[n], clean)
    decreases |records|
  {
    if records == [] || !Usable(records[0], clean) then 0 else 1 + Good(records[1..], clean)
  }

  /** The loop stops at an unusable record only when it is the first one. */
  lemma GoodStops(records: seq<Record>, clean: Sanitizer, i: nat)
    requires i <= Good(records, clean) && i < |records| && !Usable(records[i], clean)
    ensures Good(records, clean) == i
  {
  }

  /** The loop goes past a usable record, and every record up to it is usable. */
  lemma GoodGoes(records: seq<Record>, clean: Sanitizer, i: nat)
    requires i <= Good(records, clean) && i < |records| && Usable(records[i], clean)
    ensures i < Good(records, clean) && forall j :: 0 <= j <= i ==> Usable(records[j], clean)
  {
  }

  /** The loop gets through all the records only when they are all usable. */
  lemma GoodAll(records: seq<Record>, clean: Sanitizer, i: nat)
    requires |records| <= i <= Good(records, clean)
    ensures Good(records, clean) == i == |records| && records[..i] == records
  {
  }

  /** The blank nodes a run of records draws. */
  function Drawn(records: seq<Record>): nat
    decreases |records|
  {
    if records == [] then 0 else Drawn(records[..|records| - 1]) + RecordBlanks(records[|records| - 1])
  }

  /** `make` applied to the records in turn, each on the blanks after the ones before it. */
  function Each(records: seq<Record>, b: nat, make: (Record, nat) -> E.Entity): (es: seq<E.Entity>)
    ensures |es| == |records|
    decreases |records|
  {
    if records == [] then []
    else
      var init := records[..|records| - 1];
      Each(init, b, make) + [make(records[|records| - 1], b + Drawn(init))]
  }

  /** One more record at the end of the run is made on the blanks after the others'. */
  lemma {:induction false} EachNext(records: seq<Record>, i: nat, b: nat, bi: nat, make: (Record, nat) -> E.Entity)
    requires i < |records| && bi == b + Drawn(records[..i])
    ensures Each(records[..i + 1], b, make) == Each(records[..i], b, make) + [make(records[i], bi)]
  {
    assert records[..i + 1][..i] == records[..i];
  }

  /**
   * The `i`-th entity made from a run is made from the `i`-th record, on
   * the blanks after those the records before it draw.
   */
  lemma {:induction false} EachAt(records: seq<Record>, i: nat, b: nat, make: (Record, nat) -> E.Entity)
    requires i < |records|
    ensures Each(records, b, make)[i] == make(records[i], b + Drawn(records[..i]))
    decreases |records|
  {
    var n := |records| - 1;
    if i < n {
      EachAt(records[..n], i, b, make);
      assert records[..n][..i] == records[..i];
    }
  }

  /**
   * The sanitized paper URL of a record; the loop stops at the first
   * record without one, so the empty default never reaches a Paper.
   */
  function UriOf(rec: Record, clean: Sanitizer): string
  {
    if rec.paperUrl.Some? && clean(rec.paperUrl.value).Some? then clean(rec.paperUrl.value).value else ""
  }

  /** The Paper of a record on its first blank. */
  function PaperMaker(clean: Sanitizer, src: E.SourceData, mint: Minter): (Record, nat) -> E.Entity
  {
    (rec: Record, k: nat) => PaperOf(rec, UriOf(rec, clean), src, k, mint)
  }

  /** The Repository of a record on its first blank. */
  function RepoMaker(src: E.SourceData, mint: Minter): (Record, nat) -> E.Entity
  {
    (rec: Record, k: nat) => RepoOf(rec, src, k, mint)
  }

  /** The Papers of the records in turn. */
  function PapersOf(records: seq<Record>, clean: Sanitizer, src: E.SourceData, b: nat, mint: Minter): seq<E.Entity>
  {
    Each(records, b, PaperMaker(clean, src, mint))
  }

  /** The Repositories of the records in turn. */
  function ReposOf(records: seq<Record>, src: E.SourceData, b: nat, mint: Minter): seq<E.Entity>
  {
    Each(records, b, RepoMaker(src, mint))
  }

  /**
   * The `i`-th Paper of a run is the Paper of the `i`-th record, on its
   * sanitized URL when it is usable and on the blanks after the records
   * before it.
   */
  lemma PapersOfAt(records: seq<Record>, clean: Sanitizer, i: nat, src: E.SourceData, b: nat, mint: Minter)
    requires i < |records| && Usable(records[i], clean)
    ensures |PapersOf(records, clean, src, b, mint)| == |records|
    ensures PapersOf(records, clean, src, b, mint)[i]
         == PaperOf(records[i], clean(records[i].paperUrl.value).value, src, b + Drawn(records[..i]), mint)
  {
    EachAt(records, i, b, PaperMaker(clean, src, mint));
    assert UriOf(records[i], clean) == clean(records[i].paperUrl.value).value;
  }

  /** The `i`-th Repository of a run is the Repository of the `i`-th record, on the blanks after the records before it. */
  lemma ReposOfAt(records: seq<Record>, i: nat, src: E.SourceData, b: nat, mint: Minter)
    requires i < |records|
    ensures |ReposOf(records, src, b, mint)| == |records|
    ensures ReposOf(records, src, b, mint)[i] == RepoOf(records[i], src, b + Drawn(records[..i]), mint)
  {
    EachAt(records, i, b, RepoMaker(src, mint));
  }

  /** One more record at the end of the run draws its blanks after the others'. */
  lemma {:induction false} DrawnNext(records: seq<Record>, i: nat, b: nat, bi: nat, bn: nat)
    requires i < |records| && bi == b + Drawn(records[..i]) && bn == bi + RecordBlanks(records[i])
    ensures bn == b + Drawn(records[..i + 1])
  {
    assert records[..i + 1][..i] == records[..i];
  }

  /** The source object: `Source(URIRef(create_uri(paper_with_code_url)))`, on the run's first blank. */
  function PwcSource(b: nat, mint: Minter, refreshed: string, retrieved: string): E.SourceData
  {
    E.NewSource(Text(mint(PAPER_WITH_CODE_URL, b)), refreshed, retrieved)
  }

  /** The files after `write_paper_with_code_graph`. */
  function PwcWritten(files: map<string, set<Triple>>, paper: set<Triple>, code: set<Triple>): map<string, set<Triple>>
  {
    WriteIf(WriteIf(files, PAPER_FILE, paper), CODE_FILE, code)
  }

  /** `write_paper_with_code_graph`: each graph is written when not empty, and closed in any case. */
  method WritePaperWithCodeGraph(disk: Disk, paperGraph: Graph, codeGraph: Graph)
    requires paperGraph != codeGraph
    modifies disk`files, paperGraph`closed, codeGraph`closed
    ensures paperGraph.closed && codeGraph.closed
    ensures disk.files == PwcWritten(old(disk.files), paperGraph.triples, codeGraph.triples)
  {
    disk.WriteIfNonEmpty(paperGraph, PAPER_FILE);
    disk.WriteIfNonEmpty(codeGraph, CODE_FILE);
  }

  /** The loop body for the usable record `records[i]`, after the `i` before it. */
  method NextRecord(records: seq<Record>, clean: Sanitizer, i: nat, paperUri: string, src: K.Source,
                    paperGraph: Graph, codeGraph: Graph, blanks: BlankNodes, mint: Minter,
                    ghost sd: E.SourceData, ghost b: nat, ghost papers0: set<Triple>, ghost code0: set<Triple>)
    requires i < |records| && forall j :: 0 <= j <= i ==> Usable(records[j], clean)
    requires Usable(records[i], clean) && paperUri == clean(records[i].paperUrl.value).value
    requires src.Build() == sd && paperGraph != codeGraph
    requires paperGraph.triples == papers0 + Projected(PapersOf(records[..i], clean, sd, b, mint), E.Triples)
    requires codeGraph.triples == code0 + Projected(ReposOf(records[..i], sd, b, mint), E.Triples)
    requires blanks.next == b + Drawn(records[..i])
    modifies paperGraph`triples, codeGraph`triples, blanks
    ensures paperGraph.triples == papers0 + Projected(PapersOf(records[..i + 1], clean, sd, b, mint), E.Triples)
    ensures codeGraph.triples == code0 + Projected(ReposOf(records[..i + 1], sd, b, mint), E.Triples)
    ensures blanks.next == b + Drawn(records[..i + 1])
  {
    ghost var bi, papers, code := blanks.next, paperGraph.triples, codeGraph.triples;
    ghost var ps, p := PapersOf(records[..i], clean, sd, b, mint), PaperOf(records[i], paperUri, sd, bi, mint);
    ghost var rs, r := ReposOf(records[..i], sd, b, mint), RepoOf(records[i], sd, bi, mint);
    ProcessRecord(records[i], paperUri, src, paperGraph, codeGraph, blanks, mint, sd, bi, papers, code);
    EachNext(records, i, b, bi, PaperMaker(clean, sd, mint));
    assert PaperMaker(clean, sd, mint)(records[i], bi) == p;
    ProjectedNext(PapersOf(records[..i + 1], clean, sd, b, mint), ps, p, E.Triples, papers0, papers, paperGraph.triples);
    EachNext(records, i, b, bi, RepoMaker(sd, mint));
    ProjectedNext(ReposOf(records[..i + 1], sd, b, mint), rs, r, E.Triples, code0, code, codeGraph.triples);
    DrawnNext(records, i, b, bi, blanks.next);
  }

  /**
   * The loop of `process_paper_with_code` over the records, with the
   * source `src` and the run's first blank `b`: every record in turn until
   * one is not usable; `ok` is false when that one raised, and
   * `remaining` is `num_papers`, counted down once per record processed.
   */
  method ProcessRecords(records: seq<Record>, clean: Sanitizer, src: K.Source, paperGraph: Graph, codeGraph: Graph,
                        blanks: BlankNodes, mint: Minter, ghost sd: E.SourceData, ghost b: nat)
    returns (ok: bool, remaining: int)
    requires src.Build() == sd && paperGraph != codeGraph && blanks.next == b
    modifies paperGraph`triples, codeGraph`triples, blanks
    ensures var n := Good(records, clean);
      && paperGraph.triples == old(paperGraph.triples) + Projected(PapersOf(records[..n], clean, sd, b, mint), E.Triples)
      && codeGraph.triples == old(codeGraph.triples) + Projected(ReposOf(records[..n], sd, b, mint), E.Triples)
      && blanks.next == b + Drawn(records[..n])
      && (ok <==> n == |records|)
      && remaining == |records| - n
  {
    ghost var papers0, code0 := paperGraph.triples, codeGraph.triples;
    var numPapers := |records|;
    var i := 0;
    while i < |records|
      invariant 0 <= i <= Good(records, clean)
      invariant numPapers == |records| - i
      invariant paperGraph.triples == papers0 + Projected(PapersOf(records[..i], clean, sd, b, mint), E.Triples)
      invariant codeGraph.triples == code0 + Projected(ReposOf(records[..i], sd, b, mint), E.Triples)
      invariant blanks.next == b + Drawn(records[..i])
    {
      var rec := records[i];
      if rec.paperUrl.None? || clean(rec.paperUrl.value).None? || rec.repoUrl.None? {
        GoodStops(records, clean, i);
        remaining := numPapers;
        return false, remaining;
      }
      GoodGoes(records, clean, i);
      var paperUri := clean(rec.paperUrl.value).value;
      NextRecord(records, clean, i, paperUri, src, paperGraph, codeGraph, blanks, mint, sd, b, papers0, code0);
      numPapers := numPapers - 1;
      i := i + 1;
    }
    GoodAll(records, clean, i);
    return true, numPapers;
  }

  /**
   * `process_paper_with_code`: every record in turn, then the graphs are
   * written. A record whose paper URL is null or has no sanitized form, or
   * whose repository URL is null, raises a TypeError: the records before it stay projected and nothing is written.
   */
  method ProcessPaperWithCode(records: seq<Record>, paperGraph: Graph, codeGraph: Graph, disk: Disk,
                              blanks: BlankNodes, mint: Minter, refreshed: string, retrieved: string)
    returns (r: Result<()>)
    requires paperGraph != codeGraph
    modifies paperGraph, codeGraph, disk`files, blanks
    ensures var b, n := old(blanks.next), Good(records, SanitizeUri);
      var sd := PwcSource(b, mint, refreshed, retrieved);
      && paperGraph.triples == old(paperGraph.triples) + Projected(PapersOf(records[..n], SanitizeUri, sd, b + 1, mint), E.Triples)
      && codeGraph.triples == old(codeGraph.triples) + Projected(ReposOf(records[..n], sd, b + 1, mint), E.Triples)
      && blanks.next == b + 1 + Drawn(records[..n])
      && (r.Ok? <==> n == |records|)
      && (r.Ok? ==> paperGraph.closed && codeGraph.closed
                    && disk.files == PwcWritten(old(disk.files), paperGraph.triples, codeGraph.triples))
      && (r.Err? ==> r.error.TypeError? && disk.files == old(disk.files))
  {
    var b := blanks.Fresh();
    var pwc := mint(PAPER_WITH_CODE_URL, b);
    var src := new K.Source(Text(pwc), refreshed, retrieved);
    var ok, _ := ProcessRecords(records, SanitizeUri, src, paperGraph, codeGraph, blanks, mint, src.Build(), b + 1);
    if !ok {
      return Err(TypeError("expected string or bytes-like object"));
    }
    WritePaperWithCodeGraph(disk, paperGraph, codeGraph);
    return Ok(());
  }
}
