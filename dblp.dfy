/**
 * The DBLP connector of dblp_source/dblp.py: the most cited articles of
 * each publication year, read from SPARQL result rows into one Paper per
 * publication URI, completed with the sameAs identifiers DBLP links to
 * them, and united over a range of years.
 *
 * Papers are held as values (what `build()` would yield) in a map keyed by
 * URI, as the connector's `dict[URIRef, Paper]` holds them; the updates
 * the connector makes to a stored paper become map updates.
 */
module Dblp {
  import opened Wrappers
  import opened Numerals
  import opened Rdf
  import E = Entities
  import K = Knowledge

  /** The DBLP SPARQL endpoint: the URI of the connector's Source. */
  const DBLP_ENDPOINT := "https://sparql.dblp.org/sparql"

  /** Papers are asked for their sameAs links this many at a time. */
  const CHUNK: nat := 5

  /** A solution of a SELECT query: the values of the variables it binds. */
  type Binding = map<string, Term>

  /** A SPARQL result: its variables (None when it declares none) and its solutions, in order. */
  datatype ResultSet = ResultSet(vars: Option<seq<string>>, bindings: seq<Binding>)

  /**
   * The two queries the connector sends, by what their text is built from:
   * the articles of a year with their citation counts, and the sameAs links
   * of a list of papers.
   */
  datatype Query = PerYear(year: int, limit: int, offset: int) | SameAs(papers: seq<Term>)

  /** `sparql_cached`: the result of each query. */
  type Sparql = Query -> ResultSet

  // ---------------------------------------------------------------------
  // Reading one row of the per-year result

  /** The values the variable loop leaves in `paper_uri`, `paper_title`, `paper_cites` and `paper_doi`. */
  datatype Slots = Slots(publ: Option<Term>, title: Option<Term>, cites: Option<int>, doi: Option<Term>)

  /** An accepted row: its publication URI, title, citation count and DOI when bound. */
  datatype Row = Row(publ: Term, title: Term, cites: int, doi: Option<Term>)

  /** One turn of the variable loop: the `if`/`elif` chain on variable `v`. */
  function Assign(s: Slots, v: string, b: Binding): Result<Slots>
  {
    if v == "publ" then
      if v in b then Ok(Slots(Some(Iri(Text(b[v]))), s.title, s.cites, s.doi)) else Err(KeyError(v))
    else if v == "title" then
      if v in b then Ok(Slots(s.publ, Some(b[v]), s.cites, s.doi)) else Err(KeyError(v))
    else if v == "cites" then
      if v !in b then Err(KeyError(v))
      else match ParseInt(Text(b[v]))
        case Ok(n) => Ok(Slots(s.publ, s.title, Some(n), s.doi))
        case Err(e) => Err(e)
    else if v == "doi" && v in b then Ok(Slots(s.publ, s.title, s.cites, Some(b[v])))
    else Ok(s)
  }

  /**
   * A loop over the variables of a result, each turn `step` on the value it
   * builds, from `init`; the first exception ends it.
   */
  function Scan<S>(vars: seq<string>, b: Binding, init: S, step: (S, string, Binding) -> Result<S>): Result<S>
    decreases |vars|
  {
    if vars == [] then Ok(init)
    else match Scan(vars[..|vars| - 1], b, init, step)
      case Err(e) => Err(e)
      case Ok(s) => step(s, vars[|vars| - 1], b)
  }

  /** The variable loop of a per-year row, from four unset variables. */
  function ScanRow(vars: seq<string>, b: Binding): Result<Slots>
  {
    Scan(vars, b, Slots(None, None, None, None), Assign)
  }

  /** A required variable must be bound when listed, and `int` must accept the count. */
  predicate Needs(v: string, b: Binding)
  {
    (v == "publ" || v == "title" || v == "cites" ==> v in b) &&
    (v == "cites" && v in b ==> ParseInt(Text(b[v])).Ok?)
  }

  /** The variable loop runs through: every listed variable meets its need. */
  predicate Readable(vars: seq<string>, b: Binding)
  {
    forall i :: 0 <= i < |vars| ==> Needs(vars[i], b)
  }

  /**
   * The loop raises exactly when a listed variable fails its need; when it
   * runs through, each slot holds the value of its variable if listed (the
   * DOI also only if bound), and nothing otherwise.
   */
  lemma {:induction false} ScanMeaning(vars: seq<string>, b: Binding)
    ensures ScanRow(vars, b).Ok? <==> Readable(vars, b)
    ensures ScanRow(vars, b).Ok? ==>
      var s := ScanRow(vars, b).value;
      s.publ == (if "publ" in vars then Some(Iri(Text(b["publ"]))) else None) &&
      s.title == (if "title" in vars then Some(b["title"]) else None) &&
      s.cites == (if "cites" in vars then Some(ParseInt(Text(b["cites"])).value) else None) &&
      s.doi == (if "doi" in vars && "doi" in b then Some(b["doi"]) else None)
    decreases |vars|
  {
    if vars != [] {
      var n := |vars| - 1;
      var front := vars[..n];
      ScanMeaning(front, b);
      assert vars == front + [vars[n]];
      assert forall v :: v in vars <==> v in front || v == vars[n];
      if Readable(vars, b) {
        assert Readable(front, b) by {
          forall i | 0 <= i < |front| ensures Needs(front[i], b) { assert front[i] == vars[i]; }
        }
        assert Needs(vars[n], b);
      }
      if ScanRow(vars, b).Ok? {
        forall i | 0 <= i < |vars| ensures Needs(vars[i], b) {
          if i < n { assert vars[i] == front[i]; }
        }
      }
    }
  }

  /** A row whose `publ`, `title` and `cites` are all set; any other row is skipped. */
  function ReadRow(vars: seq<string>, b: Binding): Result<Option<Row>>
  {
    match ScanRow(vars, b)
    case Err(e) => Err(e)
    case Ok(s) =>
      if s.publ.Some? && s.title.Some? && s.cites.Some? then
        Ok(Some(Row(s.publ.value, s.title.value, s.cites.value, s.doi)))
      else Ok(None)
  }

  /**
   * A row raises when a listed required variable is unbound or its count
   * is not an integer; otherwise it is accepted exactly when `publ`,
   * `title` and `cites` are all listed, and then carries their values.
   */
  lemma {:induction false} ReadRowMeaning(vars: seq<string>, b: Binding)
    ensures ReadRow(vars, b).Err? <==> !Readable(vars, b)
    ensures ReadRow(vars, b).Ok? && ReadRow(vars, b).value.None? <==>
      Readable(vars, b) && !("publ" in vars && "title" in vars && "cites" in vars)
    ensures ReadRow(vars, b).Ok? && ReadRow(vars, b).value.Some? ==>
      ReadRow(vars, b).value.value ==
        Row(Iri(Text(b["publ"])), b["title"], ParseInt(Text(b["cites"])).value,
            if "doi" in vars && "doi" in b then Some(b["doi"]) else None)
  {
    ScanMeaning(vars, b);
  }

  /** Once the loop has raised, the rest of the variables change nothing. */
  lemma {:induction false} ScanRaised<S>(vars: seq<string>, i: nat, b: Binding, init: S, step: (S, string, Binding) -> Result<S>)
    requires i <= |vars| && Scan(vars[..i], b, init, step).Err?
    ensures Scan(vars, b, init, step) == Scan(vars[..i], b, init, step)
    decreases |vars|
  {
    if i < |vars| {
      var n := |vars| - 1;
      assert vars[..n][..i] == vars[..i];
      ScanRaised(vars[..n], i, b, init, step);
    } else {
      assert vars[..i] == vars;
    }
  }

  /** One more turn of the loop. */
  lemma {:induction false} ScanNext<S>(vars: seq<string>, i: nat, b: Binding, init: S, step: (S, string, Binding) -> Result<S>)
    requires i < |vars|
    ensures Scan(vars[..i], b, init, step).Err? ==> Scan(vars[..i + 1], b, init, step) == Scan(vars[..i], b, init, step)
    ensures Scan(vars[..i], b, init, step).Ok? ==>
      Scan(vars[..i + 1], b, init, step) == step(Scan(vars[..i], b, init, step).value, vars[i], b)
  {
    assert vars[..i + 1][..i] == vars[..i];
  }

  /** The variable loop of `get_article_per_year` on one binding, then the skip test. */
  method ReadBinding(vars: seq<string>, b: Binding) returns (r: Result<Option<Row>>)
    ensures r == ReadRow(vars, b)
  {
    var publ: Option<Term> := None;
    var title: Option<Term> := None;
    var cites: Option<int> := None;
    var doi: Option<Term> := None;
    var i := 0;
    while i < |vars|
      invariant i <= |vars|
      invariant Scan(vars[..i], b, Slots(None, None, None, None), Assign) == Ok(Slots(publ, title, cites, doi))
    {
      ScanNext(vars, i, b, Slots(None, None, None, None), Assign);
      var v := vars[i];
      if v == "publ" {
        if v !in b {
          ScanRaised(vars, i + 1, b, Slots(None, None, None, None), Assign);
          return Err(KeyError(v));
        }
        publ := Some(Iri(Text(b[v])));
      } else if v == "title" {
        if v !in b {
          ScanRaised(vars, i + 1, b, Slots(None, None, None, None), Assign);
          return Err(KeyError(v));
        }
        title := Some(b[v]);
      } else if v == "cites" {
        if v !in b {
          ScanRaised(vars, i + 1, b, Slots(None, None, None, None), Assign);
          return Err(KeyError(v));
        }
        var n := ParseInt(Text(b[v]));
        if n.Err? {
          ScanRaised(vars, i + 1, b, Slots(None, None, None, None), Assign);
          return Err(n.error);
        }
        cites := Some(n.value);
      } else if v == "doi" && v in b {
        doi := Some(b[v]);
      }
      i := i + 1;
    }
    assert vars[..i] == vars;
    if publ.Some? && title.Some? && cites.Some? {
      r := Ok(Some(Row(publ.value, title.value, cites.value, doi)));
    } else {
      r := Ok(None);
    }
  }

  // ---------------------------------------------------------------------
  // Folding the rows of a year into papers

  /** A built Paper with its identifiers and citation counts replaced, all else kept. */
  function Retouched(p: E.Entity, ids: set<E.Entity>, cs: set<E.CitationData>): E.Entity
    requires p.Paper?
  {
    E.Paper(p.uri, p.comments, p.labelText, p.source, p.retrievedFrom, p.related,
            p.abstractText, p.license, p.keywords, p.created, p.modified, p.version,
            p.referencedBy, ids, p.title, p.authors, p.publicationDate, p.venue, p.doi,
            p.relatedWorks, cs, p.repositories, p.downloadUrls)
  }

  /** `add_citation_count` on a stored paper: a count equal to one held adds nothing, and nothing else changes. */
  function AddCitation(p: E.Entity, c: E.CitationData): (q: E.Entity)
    requires p.Paper?
    ensures q.Paper? && q == Retouched(p, p.identifiers, q.citations)
    ensures p.citations <= q.citations <= p.citations + {c}
    ensures (exists y :: y in p.citations && E.CitationEq(y, c)) <==> q == p
  {
    Retouched(p, p.identifiers, E.InsertCitation(p.citations, c))
  }

  /** `URIRef(paper_doi)`, when the row binds a DOI. */
  function DoiOf(row: Row): Option<Term>
  {
    if row.doi.Some? then Some(Iri(Text(row.doi.value))) else None
  }

  /**
   * The paper the first row of a URI creates, its citation count on blank
   * `bc`: the row's title, that one count, and the row's DOI when bound.
   */
  function FirstPaper(row: Row, src: E.SourceData, bc: nat): (p: E.Entity)
    ensures p.Paper? && p.uri == row.publ && p.source == src
    ensures p.title == Some(Text(row.title)) && p.doi == DoiOf(row)
    ensures p.citations == {E.NewCitation(row.cites, src, bc)} && p.identifiers == {}
  {
    E.Paper(row.publ, {}, Text(row.publ), src, None, [], None, None, {}, None, None, None, {}, {},
            Some(Text(row.title)), {}, None, None, DoiOf(row), {}, {E.NewCitation(row.cites, src, bc)}, {}, {})
  }

  /** Every stored paper is a Paper whose URI is its key: at most one Paper per URI. */
  predicate Keyed(m: map<Term, E.Entity>)
  {
    forall u :: u in m ==> m[u].Paper? && m[u].uri == u
  }

  /** `keys` lists the keys of `m`, each once: the dictionary's insertion order. */
  predicate Lists(keys: seq<Term>, m: map<Term, E.Entity>)
  {
    (forall u :: u in m ==> u in keys) && (forall i :: 0 <= i < |keys| ==> keys[i] in m) &&
    (forall i, j :: 0 <= i < j < |keys| ==> keys[i] != keys[j])
  }

  /** The dictionary of a year's rows so far, its insertion order, and the next blank. */
  datatype Harvest = Harvest(papers: map<Term, E.Entity>, keys: seq<Term>, next: nat)

  /**
   * An accepted row. A count is built first, on the next blank; a URI not
   * yet held gets a new paper (whose own count takes the blank after), a
   * URI held gets the first count added to its paper.
   */
  function AddRow(h: Harvest, row: Row, src: E.SourceData): (r: Harvest)
    requires Keyed(h.papers) && Lists(h.keys, h.papers)
    ensures Keyed(r.papers) && Lists(r.keys, r.papers) && h.next < r.next
    ensures r.papers.Keys == h.papers.Keys + {row.publ}
  {
    if row.publ !in h.papers then
      Harvest(h.papers[row.publ := FirstPaper(row, src, h.next + 1)], h.keys + [row.publ], h.next + 2)
    else
      Harvest(h.papers[row.publ := AddCitation(h.papers[row.publ], E.NewCitation(row.cites, src, h.next))], h.keys, h.next + 1)
  }

  /**
   * The binding loop of `get_article_per_year` over `bs`, from an empty
   * dictionary and blank `b`: bindings are skipped when the result has no
   * variables, and the first exception ends the loop.
   */
  function Fold(vars: Option<seq<string>>, bs: seq<Binding>, src: E.SourceData, b: nat): (r: Result<Harvest>)
    ensures r.Ok? ==> Keyed(r.value.papers) && Lists(r.value.keys, r.value.papers) && b <= r.value.next
    decreases |bs|
  {
    if bs == [] then Ok(Harvest(map[], [], b))
    else match Fold(vars, bs[..|bs| - 1], src, b)
      case Err(e) => Err(e)
      case Ok(h) => FoldStep(h, vars, bs[|bs| - 1], src)
  }

  /** One binding of the loop. */
  function FoldStep(h: Harvest, vars: Option<seq<string>>, binding: Binding, src: E.SourceData): (r: Result<Harvest>)
    requires Keyed(h.papers) && Lists(h.keys, h.papers)
    ensures r.Ok? ==> Keyed(r.value.papers) && Lists(r.value.keys, r.value.papers) && h.next <= r.value.next
  {
    if vars.None? then Ok(h)
    else match ReadRow(vars.value, binding)
      case Err(e) => Err(e)
      case Ok(None) => Ok(h)
      case Ok(Some(row)) => Ok(AddRow(h, row, src))
  }

  /** One more binding of the loop. */
  lemma {:induction false} FoldNext(vars: Option<seq<string>>, bs: seq<Binding>, src: E.SourceData, b: nat, i: nat)
    requires i < |bs|
    ensures Fold(vars, bs[..i], src, b).Err? ==> Fold(vars, bs[..i + 1], src, b) == Fold(vars, bs[..i], src, b)
    ensures Fold(vars, bs[..i], src, b).Ok? ==>
      Fold(vars, bs[..i + 1], src, b) == FoldStep(Fold(vars, bs[..i], src, b).value, vars, bs[i], src)
  {
    assert bs[..i + 1][..i] == bs[..i];
  }

  /** Once the loop has raised, the rest of the bindings change nothing. */
  lemma {:induction false} FoldRaised(vars: Option<seq<string>>, bs: seq<Binding>, src: E.SourceData, b: nat, i: nat)
    requires i <= |bs| && Fold(vars, bs[..i], src, b).Err?
    ensures Fold(vars, bs, src, b) == Fold(vars, bs[..i], src, b)
    decreases |bs|
  {
    if i < |bs| {
      var n := |bs| - 1;
      assert bs[..n][..i] == bs[..i];
      FoldRaised(vars, bs[..n], src, b, i);
    } else {
      assert bs[..i] == bs;
    }
  }

  /** `full` keeps every paper of `pre`, changing at most its citation counts, which only grow. */
  predicate Grown(pre: map<Term, E.Entity>, full: map<Term, E.Entity>)
  {
    forall u :: u in pre ==>
      (u in full && pre[u].Paper? && full[u].Paper? &&
       full[u] == Retouched(pre[u], pre[u].identifiers, full[u].citations) && pre[u].citations <= full[u].citations)
  }

  /** What growth keeps of one paper. */
  lemma GrownAt(pre: map<Term, E.Entity>, full: map<Term, E.Entity>, u: Term)
    requires Grown(pre, full) && u in pre
    ensures u in full && full[u].Paper? && full[u].title == pre[u].title && full[u].doi == pre[u].doi
    ensures full[u].identifiers == pre[u].identifiers && pre[u].citations <= full[u].citations
  {
  }

  lemma GrownRefl(m: map<Term, E.Entity>)
    requires Keyed(m)
    ensures Grown(m, m)
  {
  }

  lemma GrownTrans(a: map<Term, E.Entity>, b: map<Term, E.Entity>, c: map<Term, E.Entity>)
    requires Grown(a, b) && Grown(b, c)
    ensures Grown(a, c)
  {
    forall u | u in a ensures c[u] == Retouched(a[u], a[u].identifiers, c[u].citations) {
      assert b[u].Paper?;
    }
  }

  /** An accepted row keeps every paper held, at most adding a count to one, and appends a new URI to the order. */
  lemma {:induction false} AddRowGrows(h: Harvest, row: Row, src: E.SourceData)
    requires Keyed(h.papers) && Lists(h.keys, h.papers)
    ensures Grown(h.papers, AddRow(h, row, src).papers) && h.keys <= AddRow(h, row, src).keys
  {
    var full := AddRow(h, row, src).papers;
    forall u | u in h.papers
      ensures u in full && full[u].Paper? && full[u] == Retouched(h.papers[u], h.papers[u].identifiers, full[u].citations)
      ensures h.papers[u].citations <= full[u].citations
    {
      if u != row.publ {
        RetouchedSelf(h.papers[u]);
      }
    }
  }

  /** A paper retouched with its own identifiers and counts is itself. */
  lemma RetouchedSelf(p: E.Entity)
    requires p.Paper?
    ensures Retouched(p, p.identifiers, p.citations) == p
  {
  }

  /**
   * A prefix of the bindings ran through too, and what it left is kept:
   * each paper it held is still held with at most more citation counts,
   * and its insertion order is a prefix of the final one.
   */
  lemma {:induction false} FoldKeeps(vars: Option<seq<string>>, bs: seq<Binding>, src: E.SourceData, b: nat, k: nat)
    requires k <= |bs| && Fold(vars, bs, src, b).Ok?
    ensures Fold(vars, bs[..k], src, b).Ok?
    ensures Grown(Fold(vars, bs[..k], src, b).value.papers, Fold(vars, bs, src, b).value.papers)
    ensures Fold(vars, bs[..k], src, b).value.keys <= Fold(vars, bs, src, b).value.keys
    decreases |bs|
  {
    if k == |bs| {
      assert bs[..k] == bs;
      GrownRefl(Fold(vars, bs, src, b).value.papers);
    } else {
      var n := |bs| - 1;
      var front := bs[..n];
      FoldKeeps(vars, front, src, b, k);
      assert front[..k] == bs[..k];
      var h := Fold(vars, front, src, b).value;
      var row := if vars.Some? then ReadRow(vars.value, bs[n]) else Ok(None);
      if row.Ok? && row.value.Some? {
        AddRowGrows(h, row.value.value, src);
        GrownTrans(Fold(vars, bs[..k], src, b).value.papers, h.papers, Fold(vars, bs, src, b).value.papers);
      }
    }
  }

  /** Row `i` was accepted into what the rows before it left, and what it made then only grew. */
  lemma {:induction false} FoldAt(vars: seq<string>, bs: seq<Binding>, src: E.SourceData, b: nat, i: nat, row: Row)
    requires i < |bs| && Fold(Some(vars), bs, src, b).Ok? && ReadRow(vars, bs[i]) == Ok(Some(row))
    ensures Fold(Some(vars), bs[..i], src, b).Ok?
    ensures var pre := Fold(Some(vars), bs[..i], src, b).value;
      Keyed(pre.papers) && Lists(pre.keys, pre.papers) &&
      Grown(AddRow(pre, row, src).papers, Fold(Some(vars), bs, src, b).value.papers)
  {
    FoldNext(Some(vars), bs, src, b, i);
    FoldKeeps(Some(vars), bs, src, b, i + 1);
  }

  /**
   * The first row of a URI decides its paper's title and DOI for good:
   * when row `i` is accepted and no earlier row held its URI, the final
   * paper of that URI has row `i`'s title and DOI, no identifier, and row
   * `i`'s count among its counts.
   */
  lemma {:induction false} FirstRowWins(vars: seq<string>, bs: seq<Binding>, src: E.SourceData, b: nat, i: nat, row: Row)
    requires i < |bs| && Fold(Some(vars), bs, src, b).Ok? && ReadRow(vars, bs[i]) == Ok(Some(row))
    requires Fold(Some(vars), bs[..i], src, b).Ok? && row.publ !in Fold(Some(vars), bs[..i], src, b).value.papers
    ensures row.publ in Fold(Some(vars), bs, src, b).value.papers
    ensures var p := Fold(Some(vars), bs, src, b).value.papers[row.publ];
      p.title == Some(Text(row.title)) && p.doi == DoiOf(row) && p.identifiers == {} &&
      E.NewCitation(row.cites, src, Fold(Some(vars), bs[..i], src, b).value.next + 1) in p.citations
  {
    FoldAt(vars, bs, src, b, i, row);
    var pre := Fold(Some(vars), bs[..i], src, b).value;
    GrownAt(AddRow(pre, row, src).papers, Fold(Some(vars), bs, src, b).value.papers, row.publ);
  }

  /** A paper holds a citation count of `n` from `src` (with no date), up to `CitationCount.__eq__`. */
  predicate Counted(p: E.Entity, n: int, src: E.SourceData)
    requires p.Paper?
  {
    exists c :: c in p.citations && E.CitationEq(c, E.NewCitation(n, src, 0))
  }

  /** An accepted row leaves its count held, and growth keeps it held. */
  lemma {:induction false} AddRowCounted(h: Harvest, row: Row, src: E.SourceData, full: map<Term, E.Entity>)
    requires Keyed(h.papers) && Lists(h.keys, h.papers) && Grown(AddRow(h, row, src).papers, full)
    ensures row.publ in full && full[row.publ].Paper? && Counted(full[row.publ], row.cites, src)
  {
    var mid := AddRow(h, row, src).papers;
    GrownAt(mid, full, row.publ);
    var c := if row.publ in h.papers then E.NewCitation(row.cites, src, h.next) else E.NewCitation(row.cites, src, h.next + 1);
    assert E.CitationEq(c, E.NewCitation(row.cites, src, 0));
    if row.publ in h.papers && exists y :: y in h.papers[row.publ].citations && E.CitationEq(y, c) {
      var y :| y in h.papers[row.publ].citations && E.CitationEq(y, c);
      assert y in full[row.publ].citations && E.CitationEq(y, E.NewCitation(row.cites, src, 0));
    } else {
      assert c in full[row.publ].citations;
    }
  }

  /** Every accepted row's count is held by the final paper of its URI. */
  lemma {:induction false} RowCounted(vars: seq<string>, bs: seq<Binding>, src: E.SourceData, b: nat, i: nat, row: Row)
    requires i < |bs| && Fold(Some(vars), bs, src, b).Ok? && ReadRow(vars, bs[i]) == Ok(Some(row))
    ensures row.publ in Fold(Some(vars), bs, src, b).value.papers
    ensures Counted(Fold(Some(vars), bs, src, b).value.papers[row.publ], row.cites, src)
  {
    FoldAt(vars, bs, src, b, i, row);
    AddRowCounted(Fold(Some(vars), bs[..i], src, b).value, row, src, Fold(Some(vars), bs, src, b).value.papers);
  }

  /**
   * A row whose count equals one its paper already holds (same source,
   * count and date) leaves every paper as it was.
   */
  lemma {:induction false} RepeatedCount(h: Harvest, row: Row, src: E.SourceData)
    requires Keyed(h.papers) && Lists(h.keys, h.papers)
    requires row.publ in h.papers && Counted(h.papers[row.publ], row.cites, src)
    ensures AddRow(h, row, src).papers == h.papers && AddRow(h, row, src).keys == h.keys
  {
    var y :| y in h.papers[row.publ].citations && E.CitationEq(y, E.NewCitation(row.cites, src, 0));
    assert E.CitationEq(y, E.NewCitation(row.cites, src, h.next));
  }

  /** `Paper(source, uri)`, `set_title`, a new count added, `set_doi` when a DOI is bound. */
  method NewArticle(row: Row, src: K.Source, blanks: BlankNodes, ghost sd: E.SourceData) returns (p: E.Entity)
    requires src.Build() == sd
    modifies blanks
    ensures p == FirstPaper(row, sd, old(blanks.next)) && blanks.next == old(blanks.next) + 1
  {
    var article := new K.Paper(src, row.publ);
    article.SetTitle(Text(row.title));
    var bc := blanks.Fresh();
    var count := new K.CitationCount(row.cites, src, bc);
    CountAndDoi(article, row, count.Build(), article.Build());
    p := article.Build();
  }

  /** The count and DOI of a new paper, on the paper `e` built so far. */
  method CountAndDoi(article: K.Paper, row: Row, c: E.CitationData, ghost e: E.Entity)
    requires e.Paper? && article.Build() == e
    modifies article`citations, article`doi
    ensures article.Build() == E.Paper(e.uri, e.comments, e.labelText, e.source, e.retrievedFrom, e.related,
                                       e.abstractText, e.license, e.keywords, e.created, e.modified, e.version,
                                       e.referencedBy, e.identifiers, e.title, e.authors, e.publicationDate, e.venue,
                                       if row.doi.Some? then DoiOf(row) else e.doi,
                                       e.relatedWorks, E.InsertCitation(e.citations, c), e.repositories, e.downloadUrls)
  {
    article.AddCitationCount(c);
    if row.doi.Some? {
      article.SetDoi(Iri(Text(row.doi.value)));
    }
  }

  /** The `else` branch of the binding loop: one accepted row. */
  method AddArticle(papers: map<Term, E.Entity>, keys: seq<Term>, row: Row, src: K.Source, blanks: BlankNodes,
                    ghost sd: E.SourceData)
    returns (papers': map<Term, E.Entity>, keys': seq<Term>)
    requires src.Build() == sd && Keyed(papers) && Lists(keys, papers)
    modifies blanks
    ensures AddRow(Harvest(papers, keys, old(blanks.next)), row, sd) == Harvest(papers', keys', blanks.next)
  {
    var bc := blanks.Fresh();
    var count := new K.CitationCount(row.cites, src, bc);
    if row.publ !in papers {
      var article := NewArticle(row, src, blanks, sd);
      papers', keys' := papers[row.publ := article], keys + [row.publ];
    } else {
      papers', keys' := papers[row.publ := AddCitation(papers[row.publ], count.Build())], keys;
    }
  }

  /**
   * The binding loop of `get_article_per_year`: the dictionary of papers by
   * URI and its insertion order, or the exception that ended the loop.
   */
  method FoldArticles(rs: ResultSet, src: K.Source, blanks: BlankNodes, ghost sd: E.SourceData)
    returns (r: Result<(map<Term, E.Entity>, seq<Term>)>)
    requires src.Build() == sd
    modifies blanks
    ensures var f := Fold(rs.vars, rs.bindings, sd, old(blanks.next));
      (r.Ok? <==> f.Ok?) && (r.Ok? ==> r.value == (f.value.papers, f.value.keys) && blanks.next == f.value.next)
    ensures r.Err? ==> r.error == Fold(rs.vars, rs.bindings, sd, old(blanks.next)).error && old(blanks.next) <= blanks.next
  {
    ghost var b0 := blanks.next;
    var papers: map<Term, E.Entity> := map[];
    var keys: seq<Term> := [];
    var i := 0;
    while i < |rs.bindings|
      invariant i <= |rs.bindings| && b0 <= blanks.next
      invariant Fold(rs.vars, rs.bindings[..i], sd, b0) == Ok(Harvest(papers, keys, blanks.next))
    {
      FoldNext(rs.vars, rs.bindings, sd, b0, i);
      if rs.vars.Some? {
        var row := ReadBinding(rs.vars.value, rs.bindings[i]);
        if row.Err? {
          FoldRaised(rs.vars, rs.bindings, sd, b0, i + 1);
          return Err(row.error);
        }
        if row.value.Some? {
          papers, keys := AddArticle(papers, keys, row.value.value, src, blanks, sd);
        }
      }
      i := i + 1;
    }
    assert rs.bindings[..i] == rs.bindings;
    r := Ok((papers, keys));
  }

  // ---------------------------------------------------------------------
  // Chunks of five

  /** `[xs[i:i + 5] for i in range(0, len(xs), 5)]`: slices clipped at the end, as Python clips them. */
  function Chunks<T>(xs: seq<T>): seq<seq<T>>
  {
    seq((|xs| + CHUNK - 1) / CHUNK,
        k requires 0 <= k < (|xs| + CHUNK - 1) / CHUNK => xs[k * CHUNK .. Min(k * CHUNK + CHUNK, |xs|)])
  }

  /** The sequences of `cs`, one after the other. */
  function Concat<T>(cs: seq<seq<T>>): seq<T>
    decreases |cs|
  {
    if cs == [] then [] else Concat(cs[..|cs| - 1]) + cs[|cs| - 1]
  }

  /** The first `k` chunks are the first `5k` elements. */
  lemma {:induction false} ChunksPrefix<T>(xs: seq<T>, k: nat)
    requires k <= |Chunks(xs)|
    ensures Concat(Chunks(xs)[..k]) == xs[..Min(k * CHUNK, |xs|)]
  {
    if k > 0 {
      var cs := Chunks(xs);
      ChunksPrefix(xs, k - 1);
      assert cs[..k][..k - 1] == cs[..k - 1];
      assert xs[..Min(k * CHUNK, |xs|)] == xs[..(k - 1) * CHUNK] + cs[k - 1];
    }
  }

  /**
   * The chunks, one after the other, are the list itself; each holds one to
   * five papers, and every chunk but the last holds exactly five.
   */
  lemma ChunksConcat<T>(xs: seq<T>)
    ensures Concat(Chunks(xs)) == xs
    ensures forall k :: 0 <= k < |Chunks(xs)| ==> 0 < |Chunks(xs)[k]| <= CHUNK
    ensures forall k :: 0 <= k < |Chunks(xs)| - 1 ==> |Chunks(xs)[k]| == CHUNK
  {
    var cs := Chunks(xs);
    ChunksPrefix(xs, |cs|);
    assert cs[..|cs|] == cs;
  }

  // ---------------------------------------------------------------------
  // sameAs identifiers

  /** An accepted sameAs binding: `?paper` as bound, `?sameAs` as a URIRef. */
  datatype Link = Link(paper: Term, same: Term)

  /** One turn of the variable loop of `get_article_same_as`: the two `if`s on variable `v`. */
  function AssignLink(s: (Option<Term>, Option<Term>), v: string, b: Binding): Result<(Option<Term>, Option<Term>)>
  {
    if v == "paper" then (if v in b then Ok((Some(b[v]), s.1)) else Err(KeyError(v)))
    else if v == "sameAs" then (if v in b then Ok((s.0, Some(Iri(Text(b[v]))))) else Err(KeyError(v)))
    else Ok(s)
  }

  /** The variable loop of a sameAs binding, from two unset variables. */
  function ScanLink(vars: seq<string>, b: Binding): Result<(Option<Term>, Option<Term>)>
  {
    Scan(vars, b, (None, None), AssignLink)
  }

  /** A binding whose `?paper` and `?sameAs` are both set; any other binding is skipped. */
  function ReadLink(vars: seq<string>, b: Binding): Result<Option<Link>>
  {
    match ScanLink(vars, b)
    case Err(e) => Err(e)
    case Ok(s) => if s.0.Some? && s.1.Some? then Ok(Some(Link(s.0.value, s.1.value))) else Ok(None)
  }

  /** Every listed `paper` or `sameAs` variable is bound. */
  predicate LinkReadable(vars: seq<string>, b: Binding)
  {
    forall i :: 0 <= i < |vars| ==> (vars[i] == "paper" || vars[i] == "sameAs" ==> vars[i] in b)
  }

  /** The sameAs loop raises exactly on a listed but unbound variable; otherwise each slot holds its listed value. */
  lemma {:induction false} ScanLinkMeaning(vars: seq<string>, b: Binding)
    ensures ScanLink(vars, b).Ok? <==> LinkReadable(vars, b)
    ensures ScanLink(vars, b).Ok? ==>
      ScanLink(vars, b).value.0 == (if "paper" in vars then Some(b["paper"]) else None) &&
      ScanLink(vars, b).value.1 == (if "sameAs" in vars then Some(Iri(Text(b["sameAs"]))) else None)
    decreases |vars|
  {
    if vars != [] {
      var n := |vars| - 1;
      var front := vars[..n];
      ScanLinkMeaning(front, b);
      assert vars == front + [vars[n]];
      assert forall v :: v in vars <==> v in front || v == vars[n];
      if LinkReadable(vars, b) {
        assert LinkReadable(front, b) by {
          forall i | 0 <= i < |front| ensures front[i] == "paper" || front[i] == "sameAs" ==> front[i] in b {
            assert front[i] == vars[i];
          }
        }
      }
      if ScanLink(vars, b).Ok? {
        forall i | 0 <= i < |vars| ensures vars[i] == "paper" || vars[i] == "sameAs" ==> vars[i] in b {
          if i < n { assert vars[i] == front[i]; }
        }
      }
    }
  }

  /**
   * A sameAs binding raises when a listed `paper` or `sameAs` is unbound;
   * otherwise it is accepted exactly when both are listed.
   */
  lemma {:induction false} ReadLinkMeaning(vars: seq<string>, b: Binding)
    ensures ReadLink(vars, b).Err? <==> !LinkReadable(vars, b)
    ensures ReadLink(vars, b).Ok? && ReadLink(vars, b).value.Some? <==>
      LinkReadable(vars, b) && "paper" in vars && "sameAs" in vars
    ensures ReadLink(vars, b).Ok? && ReadLink(vars, b).value.Some? ==>
      ReadLink(vars, b).value.value == Link(b["paper"], Iri(Text(b["sameAs"])))
  {
    ScanLinkMeaning(vars, b);
  }

  /** The variable loop of `get_article_same_as` on one binding, then the test that both are set. */
  method ReadSameAs(vars: seq<string>, b: Binding) returns (r: Result<Option<Link>>)
    ensures r == ReadLink(vars, b)
  {
    var paper: Option<Term> := None;
    var same: Option<Term> := None;
    var i := 0;
    while i < |vars|
      invariant i <= |vars|
      invariant Scan(vars[..i], b, (None, None), AssignLink) == Ok((paper, same))
    {
      ScanNext(vars, i, b, (None, None), AssignLink);
      var v := vars[i];
      if v == "paper" {
        if v !in b {
          ScanRaised(vars, i + 1, b, (None, None), AssignLink);
          return Err(KeyError(v));
        }
        paper := Some(b[v]);
      }
      if v == "sameAs" {
        if v !in b {
          ScanRaised(vars, i + 1, b, (None, None), AssignLink);
          return Err(KeyError(v));
        }
        same := Some(Iri(Text(b[v])));
      }
      i := i + 1;
    }
    assert vars[..i] == vars;
    if paper.Some? && same.Some? {
      r := Ok(Some(Link(paper.value, same.value)));
    } else {
      r := Ok(None);
    }
  }

  /** `add_identifier` on a stored paper: the identifier is held afterwards, and nothing else changes. */
  function AddIdentifier(p: E.Entity, id: E.Entity): (q: E.Entity)
    requires p.Paper?
    ensures q.Paper? && q == Retouched(p, q.identifiers, p.citations)
    ensures p.identifiers <= q.identifiers <= p.identifiers + {id} && E.Holds(q.identifiers, id)
  {
    E.InsertLaws();
    Retouched(p, E.Insert(p.identifiers, id), p.citations)
  }

  /**
   * One sameAs binding: skipped when the result has no variables or the
   * binding lacks one of the two; otherwise the linked paper, which must be
   * in the dictionary, gets a UniqueIdentifier of the sameAs URI.
   */
  function LinkStep(m: map<Term, E.Entity>, vars: Option<seq<string>>, binding: Binding, src: E.SourceData)
    : (r: Result<map<Term, E.Entity>>)
    requires Keyed(m)
    ensures r.Ok? ==> Keyed(r.value) && r.value.Keys == m.Keys
  {
    if vars.None? then Ok(m)
    else match ReadLink(vars.value, binding)
      case Err(e) => Err(e)
      case Ok(None) => Ok(m)
      case Ok(Some(link)) =>
        if link.paper in m then Ok(m[link.paper := AddIdentifier(m[link.paper], E.NewIdentifier(src, link.same))])
        else Err(KeyError(Text(link.paper)))
  }

  /** The binding loop over one sameAs result; the first exception ends it. */
  function MergeResult(m: map<Term, E.Entity>, vars: Option<seq<string>>, bs: seq<Binding>, src: E.SourceData)
    : (r: Result<map<Term, E.Entity>>)
    requires Keyed(m)
    ensures r.Ok? ==> Keyed(r.value) && r.value.Keys == m.Keys
    decreases |bs|
  {
    if bs == [] then Ok(m)
    else match MergeResult(m, vars, bs[..|bs| - 1], src)
      case Err(e) => Err(e)
      case Ok(m') => LinkStep(m', vars, bs[|bs| - 1], src)
  }

  /** The chunk loop: each chunk's sameAs result merged in turn; the first exception ends it. */
  function MergeChunks(m: map<Term, E.Entity>, chunks: seq<seq<Term>>, sparql: Sparql, src: E.SourceData)
    : (r: Result<map<Term, E.Entity>>)
    requires Keyed(m)
    ensures r.Ok? ==> Keyed(r.value) && r.value.Keys == m.Keys
    decreases |chunks|
  {
    if chunks == [] then Ok(m)
    else match MergeChunks(m, chunks[..|chunks| - 1], sparql, src)
      case Err(e) => Err(e)
      case Ok(m') =>
        var rs := sparql(SameAs(chunks[|chunks| - 1]));
        MergeResult(m', rs.vars, rs.bindings, src)
  }

  /** `get_article_same_as`, on the papers listed in the order `listing`. */
  function Merge(m: map<Term, E.Entity>, listing: seq<Term>, sparql: Sparql, src: E.SourceData)
    : (r: Result<map<Term, E.Entity>>)
    requires Keyed(m)
    ensures r.Ok? ==> Keyed(r.value) && r.value.Keys == m.Keys
  {
    MergeChunks(m, Chunks(listing), sparql, src)
  }

  /** One more binding of the sameAs loop. */
  lemma {:induction false} MergeNext(m: map<Term, E.Entity>, vars: Option<seq<string>>, bs: seq<Binding>, src: E.SourceData, i: nat)
    requires Keyed(m) && i < |bs|
    ensures MergeResult(m, vars, bs[..i], src).Err? ==> MergeResult(m, vars, bs[..i + 1], src) == MergeResult(m, vars, bs[..i], src)
    ensures MergeResult(m, vars, bs[..i], src).Ok? ==>
      MergeResult(m, vars, bs[..i + 1], src) == LinkStep(MergeResult(m, vars, bs[..i], src).value, vars, bs[i], src)
  {
    assert bs[..i + 1][..i] == bs[..i];
  }

  /** Once the sameAs loop has raised, the rest of the bindings change nothing. */
  lemma {:induction false} MergeRaised(m: map<Term, E.Entity>, vars: Option<seq<string>>, bs: seq<Binding>, src: E.SourceData, i: nat)
    requires Keyed(m) && i <= |bs| && MergeResult(m, vars, bs[..i], src).Err?
    ensures MergeResult(m, vars, bs, src) == MergeResult(m, vars, bs[..i], src)
    decreases |bs|
  {
    if i < |bs| {
      var n := |bs| - 1;
      assert bs[..n][..i] == bs[..i];
      MergeRaised(m, vars, bs[..n], src, i);
    } else {
      assert bs[..i] == bs;
    }
  }

  /** One binding of the sameAs loop: the link read, its identifier added to its paper. */
  method MergeBinding(m: map<Term, E.Entity>, vars: Option<seq<string>>, binding: Binding, src: K.Source, ghost sd: E.SourceData)
    returns (r: Result<map<Term, E.Entity>>)
    requires src.Build() == sd && Keyed(m)
    ensures r == LinkStep(m, vars, binding, sd)
  {
    if vars.None? {
      return Ok(m);
    }
    var link := ReadSameAs(vars.value, binding);
    if link.Err? {
      return Err(link.error);
    }
    if link.value.None? {
      return Ok(m);
    }
    var paper, same := link.value.value.paper, link.value.value.same;
    var id := new K.UniqueIdentifier(src, same);
    if paper !in m {
      return Err(KeyError(Text(paper)));
    }
    r := Ok(m[paper := AddIdentifier(m[paper], id.Build())]);
  }

  /** The binding loop over one sameAs result. */
  method MergeLinks(papers: map<Term, E.Entity>, rs: ResultSet, src: K.Source, ghost sd: E.SourceData)
    returns (r: Result<map<Term, E.Entity>>)
    requires src.Build() == sd && Keyed(papers)
    ensures r == MergeResult(papers, rs.vars, rs.bindings, sd)
  {
    var m := papers;
    var i := 0;
    while i < |rs.bindings|
      invariant i <= |rs.bindings|
      invariant MergeResult(papers, rs.vars, rs.bindings[..i], sd) == Ok(m)
    {
      MergeNext(papers, rs.vars, rs.bindings, sd, i);
      var step := MergeBinding(m, rs.vars, rs.bindings[i], src, sd);
      if step.Err? {
        MergeRaised(papers, rs.vars, rs.bindings, sd, i + 1);
        return step;
      }
      m := step.value;
      i := i + 1;
    }
    assert rs.bindings[..i] == rs.bindings;
    r := Ok(m);
  }

  /** One more chunk of the chunk loop. */
  lemma {:induction false} MergeChunksNext(m: map<Term, E.Entity>, chunks: seq<seq<Term>>, sparql: Sparql, src: E.SourceData, i: nat)
    requires Keyed(m) && i < |chunks|
    ensures MergeChunks(m, chunks[..i], sparql, src).Err? ==>
      MergeChunks(m, chunks[..i + 1], sparql, src) == MergeChunks(m, chunks[..i], sparql, src)
    ensures MergeChunks(m, chunks[..i], sparql, src).Ok? ==>
      var rs := sparql(SameAs(chunks[i]));
      MergeChunks(m, chunks[..i + 1], sparql, src) == MergeResult(MergeChunks(m, chunks[..i], sparql, src).value, rs.vars, rs.bindings, src)
  {
    assert chunks[..i + 1][..i] == chunks[..i];
  }

  /** Once the chunk loop has raised, the rest of the chunks change nothing. */
  lemma {:induction false} MergeChunksRaised(m: map<Term, E.Entity>, chunks: seq<seq<Term>>, sparql: Sparql, src: E.SourceData, i: nat)
    requires Keyed(m) && i <= |chunks| && MergeChunks(m, chunks[..i], sparql, src).Err?
    ensures MergeChunks(m, chunks, sparql, src) == MergeChunks(m, chunks[..i], sparql, src)
    decreases |chunks|
  {
    if i < |chunks| {
      var n := |chunks| - 1;
      assert chunks[..n][..i] == chunks[..i];
      MergeChunksRaised(m, chunks[..n], sparql, src, i);
    } else {
      assert chunks[..i] == chunks;
    }
  }

  /**
   * `get_article_same_as`: the papers listed in the order `listing`, split
   * into chunks of five, each chunk's sameAs links added to the papers.
   */
  method GetArticleSameAs(papers: map<Term, E.Entity>, listing: seq<Term>, sparql: Sparql, src: K.Source, ghost sd: E.SourceData)
    returns (r: Result<map<Term, E.Entity>>)
    requires src.Build() == sd && Keyed(papers)
    ensures r == Merge(papers, listing, sparql, sd)
  {
    var chunks := Chunks(listing);
    var m := papers;
    var i := 0;
    while i < |chunks|
      invariant i <= |chunks|
      invariant MergeChunks(papers, chunks[..i], sparql, sd) == Ok(m)
    {
      MergeChunksNext(papers, chunks, sparql, sd, i);
      var merged := MergeLinks(m, sparql(SameAs(chunks[i])), src, sd);
      if merged.Err? {
        MergeChunksRaised(papers, chunks, sparql, sd, i + 1);
        return merged;
      }
      m := merged.value;
      i := i + 1;
    }
    assert chunks[..i] == chunks;
    r := Ok(m);
  }

  /** `full` keeps every paper of `pre`, changing at most its identifiers, which only grow. */
  predicate IdsGrown(pre: map<Term, E.Entity>, full: map<Term, E.Entity>)
  {
    forall u :: u in pre ==>
      (u in full && pre[u].Paper? && full[u].Paper? &&
       full[u] == Retouched(pre[u], full[u].identifiers, pre[u].citations) && pre[u].identifiers <= full[u].identifiers)
  }

  lemma IdsGrownTrans(a: map<Term, E.Entity>, b: map<Term, E.Entity>, c: map<Term, E.Entity>)
    requires IdsGrown(a, b) && IdsGrown(b, c)
    ensures IdsGrown(a, c)
  {
    forall u | u in a ensures c[u] == Retouched(a[u], c[u].identifiers, a[u].citations) {
      assert b[u].Paper?;
    }
  }

  /** A sameAs step changes at most identifiers. */
  lemma LinkStepGrows(m: map<Term, E.Entity>, vars: Option<seq<string>>, binding: Binding, src: E.SourceData)
    requires Keyed(m) && LinkStep(m, vars, binding, src).Ok?
    ensures IdsGrown(m, LinkStep(m, vars, binding, src).value)
  {
  }

  /**
   * A prefix of a sameAs result ran through too, and the rest of the
   * result changed at most the identifiers of what it left.
   */
  lemma {:induction false} MergeKeeps(m: map<Term, E.Entity>, vars: Option<seq<string>>, bs: seq<Binding>, src: E.SourceData, k: nat)
    requires Keyed(m) && k <= |bs| && MergeResult(m, vars, bs, src).Ok?
    ensures MergeResult(m, vars, bs[..k], src).Ok?
    ensures IdsGrown(MergeResult(m, vars, bs[..k], src).value, MergeResult(m, vars, bs, src).value)
    decreases |bs|
  {
    if k == |bs| {
      assert bs[..k] == bs;
    } else {
      var n := |bs| - 1;
      MergeKeeps(m, vars, bs[..n], src, k);
      assert bs[..n][..k] == bs[..k];
      var mid := MergeResult(m, vars, bs[..n], src).value;
      LinkStepGrows(mid, vars, bs[n], src);
      IdsGrownTrans(MergeResult(m, vars, bs[..k], src).value, mid, MergeResult(m, vars, bs, src).value);
    }
  }

  /** The sameAs loop over one result changes at most identifiers. */
  lemma MergeResultGrows(m: map<Term, E.Entity>, vars: Option<seq<string>>, bs: seq<Binding>, src: E.SourceData)
    requires Keyed(m) && MergeResult(m, vars, bs, src).Ok?
    ensures IdsGrown(m, MergeResult(m, vars, bs, src).value)
  {
    MergeKeeps(m, vars, bs, src, 0);
  }

  /** A prefix of the chunks ran through too, and the later chunks changed at most identifiers. */
  lemma {:induction false} MergeChunksKeeps(m: map<Term, E.Entity>, chunks: seq<seq<Term>>, sparql: Sparql, src: E.SourceData, k: nat)
    requires Keyed(m) && k <= |chunks| && MergeChunks(m, chunks, sparql, src).Ok?
    ensures MergeChunks(m, chunks[..k], sparql, src).Ok?
    ensures IdsGrown(MergeChunks(m, chunks[..k], sparql, src).value, MergeChunks(m, chunks, sparql, src).value)
    decreases |chunks|
  {
    if k == |chunks| {
      assert chunks[..k] == chunks;
    } else {
      var n := |chunks| - 1;
      MergeChunksKeeps(m, chunks[..n], sparql, src, k);
      assert chunks[..n][..k] == chunks[..k];
      var mid := MergeChunks(m, chunks[..n], sparql, src).value;
      var rs := sparql(SameAs(chunks[n]));
      MergeResultGrows(mid, rs.vars, rs.bindings, src);
      IdsGrownTrans(MergeChunks(m, chunks[..k], sparql, src).value, mid, MergeChunks(m, chunks, sparql, src).value);
    }
  }

  /**
   * The sameAs merge keeps every paper and changes at most its identifiers,
   * which only grow: titles, DOIs and citation counts are as the rows left
   * them.
   */
  lemma MergeGrows(m: map<Term, E.Entity>, listing: seq<Term>, sparql: Sparql, src: E.SourceData)
    requires Keyed(m) && Merge(m, listing, sparql, src).Ok?
    ensures IdsGrown(m, Merge(m, listing, sparql, src).value)
  {
    MergeChunksKeeps(m, Chunks(listing), sparql, src, 0);
  }

  /** An accepted sameAs binding of one result leaves its identifier on its paper. */
  lemma {:induction false} LinkHeldIn(m: map<Term, E.Entity>, vars: seq<string>, bs: seq<Binding>, src: E.SourceData, j: nat, link: Link)
    requires Keyed(m) && MergeResult(m, Some(vars), bs, src).Ok?
    requires j < |bs| && ReadLink(vars, bs[j]) == Ok(Some(link))
    ensures link.paper in MergeResult(m, Some(vars), bs, src).value
    ensures E.Holds(MergeResult(m, Some(vars), bs, src).value[link.paper].identifiers, E.NewIdentifier(src, link.same))
  {
    var full := MergeResult(m, Some(vars), bs, src).value;
    MergeKeeps(m, Some(vars), bs, src, j + 1);
    MergeNext(m, Some(vars), bs, src, j);
    var post := MergeResult(m, Some(vars), bs[..j + 1], src).value;
    assert E.Holds(post[link.paper].identifiers, E.NewIdentifier(src, link.same));
    E.HoldsGrows(post[link.paper].identifiers, full[link.paper].identifiers, E.NewIdentifier(src, link.same));
  }

  /**
   * Every accepted sameAs binding of every chunk leaves a UniqueIdentifier
   * of its sameAs URI (or one equal to it) on its paper.
   */
  lemma LinkHeld(m: map<Term, E.Entity>, listing: seq<Term>, sparql: Sparql, src: E.SourceData,
                 k: nat, j: nat, link: Link)
    requires Keyed(m) && Merge(m, listing, sparql, src).Ok?
    requires k < |Chunks(listing)| && sparql(SameAs(Chunks(listing)[k])).vars.Some?
    requires j < |sparql(SameAs(Chunks(listing)[k])).bindings|
    requires ReadLink(sparql(SameAs(Chunks(listing)[k])).vars.value, sparql(SameAs(Chunks(listing)[k])).bindings[j]) == Ok(Some(link))
    ensures link.paper in Merge(m, listing, sparql, src).value
    ensures E.Holds(Merge(m, listing, sparql, src).value[link.paper].identifiers, E.NewIdentifier(src, link.same))
  {
    var chunks := Chunks(listing);
    var rs := sparql(SameAs(chunks[k]));
    var full := Merge(m, listing, sparql, src).value;
    MergeChunksKeeps(m, chunks, sparql, src, k + 1);
    MergeChunksNext(m, chunks, sparql, src, k);
    var before := MergeChunks(m, chunks[..k], sparql, src).value;
    var after := MergeChunks(m, chunks[..k + 1], sparql, src).value;
    LinkHeldIn(before, rs.vars.value, rs.bindings, src, j, link);
    E.HoldsGrows(after[link.paper].identifiers, full[link.paper].identifiers, E.NewIdentifier(src, link.same));
  }

  // ---------------------------------------------------------------------
  // One year, and the union of the years

  /**
   * `get_article_per_year`: the rows folded into papers, then their sameAs
   * links merged in; the papers keep the order in which the rows met them.
   */
  function YearRun(year: int, limit: int, offset: int, sparql: Sparql, src: E.SourceData, b: nat): (r: Result<Harvest>)
    ensures r.Ok? ==> Keyed(r.value.papers) && Lists(r.value.keys, r.value.papers) && b <= r.value.next
  {
    var rs := sparql(PerYear(year, limit, offset));
    match Fold(rs.vars, rs.bindings, src, b)
    case Err(e) => Err(e)
    case Ok(h) =>
      match Merge(h.papers, h.keys, sparql, src)
      case Err(e) => Err(e)
      case Ok(m) => Ok(Harvest(m, h.keys, h.next))
  }

  /**
   * A year's papers are those its rows made, with at most more identifiers:
   * what the row lemmas say of the fold still holds of the year.
   */
  lemma YearKeepsRows(year: int, limit: int, offset: int, sparql: Sparql, src: E.SourceData, b: nat)
    requires YearRun(year, limit, offset, sparql, src, b).Ok?
    ensures var rs := sparql(PerYear(year, limit, offset));
      Fold(rs.vars, rs.bindings, src, b).Ok? &&
      YearRun(year, limit, offset, sparql, src, b).value.keys == Fold(rs.vars, rs.bindings, src, b).value.keys &&
      IdsGrown(Fold(rs.vars, rs.bindings, src, b).value.papers, YearRun(year, limit, offset, sparql, src, b).value.papers)
  {
    var rs := sparql(PerYear(year, limit, offset));
    var h := Fold(rs.vars, rs.bindings, src, b).value;
    MergeGrows(h.papers, h.keys, sparql, src);
  }

  method GetArticlePerYear(year: int, limit: int, offset: int, sparql: Sparql, src: K.Source, blanks: BlankNodes, ghost sd: E.SourceData)
    returns (r: Result<set<E.Entity>>)
    requires src.Build() == sd
    modifies blanks
    ensures var y := YearRun(year, limit, offset, sparql, sd, old(blanks.next));
      (r.Ok? <==> y.Ok?) && (r.Ok? ==> r.value == y.value.papers.Values && blanks.next == y.value.next)
    ensures r.Err? ==> r.error == YearRun(year, limit, offset, sparql, sd, old(blanks.next)).error && old(blanks.next) <= blanks.next
  {
    var folded := FoldArticles(sparql(PerYear(year, limit, offset)), src, blanks, sd);
    if folded.Err? {
      return Err(folded.error);
    }
    var merged := GetArticleSameAs(folded.value.0, folded.value.1, sparql, src, sd);
    if merged.Err? {
      return Err(merged.error);
    }
    r := Ok(merged.value.Values);
  }

  /** `a.union(b)`: what `a` holds, and what of `b` it holds no equal of. */
  function UnionEq(a: set<E.Entity>, b: set<E.Entity>): set<E.Entity>
  {
    a + set x | x in b && !E.Holds(a, x)
  }

  /**
   * The union of two years' papers is the values of their maps joined with
   * the earlier year's paper kept wherever both have a URI.
   */
  lemma UnionEqValues(early: map<Term, E.Entity>, late: map<Term, E.Entity>)
    requires Keyed(early) && Keyed(late)
    ensures UnionEq(early.Values, late.Values) == (late + early).Values
  {
    var joined := late + early;
    forall x | x in UnionEq(early.Values, late.Values) ensures x in joined.Values {
      if x in early.Values {
        var u :| u in early && early[u] == x;
        assert joined[u] == x;
      } else {
        var u :| u in late && late[u] == x;
        if u in early {
          assert E.Equal(early[u], x);
          assert false;
        }
        assert joined[u] == x;
      }
    }
    forall x | x in joined.Values ensures x in UnionEq(early.Values, late.Values) {
      var u :| u in joined && joined[u] == x;
      if u !in early {
        assert x in late.Values;
      }
    }
  }

  /** How many years `range(start_year, current_year + 1)` covers, the start year always included. */
  function YearsOf(start: int, current: int): (n: nat)
    ensures n >= 1 && (start <= current ==> n == current - start + 1)
  {
    if current > start then current - start + 1 else 1
  }

  /** What fetching one year does, from the year and the next blank node. */
  type YearFetch = (int, nat) -> Result<Harvest>

  /** `get_article_per_year(year=y, limit=limit)`, as a `YearFetch`. */
  function PerYearFetch(limit: int, sparql: Sparql, src: E.SourceData): YearFetch
  {
    (y: int, bk: nat) => YearRun(y, limit, 0, sparql, src, bk)
  }

  /** Each year's papers are keyed by URI, and a year never takes back blank nodes. */
  ghost predicate KeyedRuns(run: YearFetch)
  {
    forall y: int, bk: nat :: run(y, bk).Ok? ==> Keyed(run(y, bk).value.papers) && bk <= run(y, bk).value.next
  }

  lemma PerYearKeyed(limit: int, sparql: Sparql, src: E.SourceData)
    ensures KeyedRuns(PerYearFetch(limit, sparql, src))
  {
  }

  /**
   * The first `n` years from `start`, each with the blank nodes left by the
   * one before: the papers by URI, an earlier year's paper kept over a
   * later one's, and the next blank node.
   */
  function Years(start: int, n: nat, run: YearFetch, b: nat): (r: Result<(map<Term, E.Entity>, nat)>)
    requires KeyedRuns(run)
    ensures r.Ok? ==> Keyed(r.value.0) && b <= r.value.1
    decreases n
  {
    if n == 0 then Ok((map[], b))
    else match Years(start, n - 1, run, b)
      case Err(e) => Err(e)
      case Ok(acc) =>
        match run(start + n - 1, acc.1)
        case Err(e) => Err(e)
        case Ok(h) => Ok((h.papers + acc.0, h.next))
  }

  /** The papers of year `start + j` as the run met them (empty if by then the run had raised). */
  function YearAt(start: int, j: nat, run: YearFetch, b: nat): Harvest
    requires KeyedRuns(run)
  {
    match Years(start, j, run, b)
    case Err(_) => Harvest(map[], [], 0)
    case Ok(acc) =>
      match run(start + j, acc.1)
      case Err(_) => Harvest(map[], [], 0)
      case Ok(h) => h
  }

  /** The last of `n` years, as `YearAt` names it. */
  lemma YearsLast(start: int, n: nat, run: YearFetch, b: nat)
    requires KeyedRuns(run) && 0 < n && Years(start, n, run, b).Ok?
    ensures Years(start, n - 1, run, b).Ok?
    ensures run(start + n - 1, Years(start, n - 1, run, b).value.1).Ok?
    ensures Years(start, n, run, b).value.0 == YearAt(start, n - 1, run, b).papers + Years(start, n - 1, run, b).value.0
  {
  }

  /** A later year never replaces a paper an earlier year brought. */
  lemma {:induction false} YearsKeep(start: int, n: nat, run: YearFetch, b: nat, k: nat)
    requires KeyedRuns(run) && k <= n && Years(start, n, run, b).Ok?
    ensures Years(start, k, run, b).Ok?
    ensures forall u :: u in Years(start, k, run, b).value.0 ==>
      u in Years(start, n, run, b).value.0 && Years(start, n, run, b).value.0[u] == Years(start, k, run, b).value.0[u]
    decreases n
  {
    if k < n {
      YearsKeep(start, n - 1, run, b, k);
    }
  }

  /** Every URI of every year is in the union. */
  lemma YearKept(start: int, n: nat, run: YearFetch, b: nat, j: nat)
    requires KeyedRuns(run) && j < n && Years(start, n, run, b).Ok?
    ensures YearAt(start, j, run, b).papers.Keys <= Years(start, n, run, b).value.0.Keys
  {
    YearsKeep(start, n, run, b, j + 1);
    YearsLast(start, j + 1, run, b);
  }

  /** Every paper of every year is held by the union: it or a paper equal to it. */
  lemma YearHeld(start: int, n: nat, run: YearFetch, b: nat, j: nat)
    requires KeyedRuns(run) && j < n && Years(start, n, run, b).Ok?
    ensures forall u :: u in YearAt(start, j, run, b).papers ==>
      E.Holds(Years(start, n, run, b).value.0.Values, YearAt(start, j, run, b).papers[u])
  {
    YearKept(start, n, run, b, j);
    var all := Years(start, n, run, b).value.0;
    var h := YearAt(start, j, run, b);
    assert Keyed(h.papers);
    forall u | u in h.papers
      ensures E.Holds(all.Values, h.papers[u])
    {
      assert all[u] in all.Values && E.Equal(all[u], h.papers[u]);
    }
  }

  /** Year `start + j` is the first of the run to bring the URI `u`. */
  predicate FirstBrings(start: int, run: YearFetch, b: nat, u: Term, j: nat)
    requires KeyedRuns(run)
  {
    u in YearAt(start, j, run, b).papers &&
    forall i: nat :: i < j ==> u !in YearAt(start, i, run, b).papers
  }

  /**
   * Every paper of the union is the paper of the first year that brought
   * its URI.
   */
  lemma {:induction false} YearsFrom(start: int, n: nat, run: YearFetch, b: nat, u: Term)
    requires KeyedRuns(run) && Years(start, n, run, b).Ok? && u in Years(start, n, run, b).value.0
    ensures exists j: nat :: (j < n && FirstBrings(start, run, b, u, j) &&
      Years(start, n, run, b).value.0[u] == YearAt(start, j, run, b).papers[u])
    decreases n
  {
    YearsLast(start, n, run, b);
    var acc := Years(start, n - 1, run, b).value.0;
    if u in acc {
      YearsFrom(start, n - 1, run, b, u);
    } else {
      forall i: nat | i < n - 1 ensures u !in YearAt(start, i, run, b).papers {
        YearKept(start, n - 1, run, b, i);
      }
      assert FirstBrings(start, run, b, u, n - 1);
    }
  }

  /** Before the first year the union is empty. */
  lemma YearsNone(start: int, n: nat, run: YearFetch, b: nat, acc: map<Term, E.Entity>, bk: nat)
    requires KeyedRuns(run) && n == 0 && Years(start, n, run, b) == Ok((acc, bk))
    ensures acc == map[] && bk == b
  {
  }

  /** One more year of `dblp_most_cited_articles`'s loop. */
  lemma YearsNext(start: int, n: nat, run: YearFetch, b: nat, year: int, acc: map<Term, E.Entity>, bk: nat)
    requires KeyedRuns(run) && Years(start, n, run, b) == Ok((acc, bk)) && year == start + n
    ensures run(year, bk).Err? ==> Years(start, n + 1, run, b) == Err(run(year, bk).error)
    ensures run(year, bk).Ok? ==>
      Years(start, n + 1, run, b) == Ok((run(year, bk).value.papers + acc, run(year, bk).value.next)) &&
      (run(year, bk).value.papers + acc).Values == UnionEq(acc.Values, run(year, bk).value.papers.Values)
  {
    if run(year, bk).Ok? {
      UnionEqValues(acc, run(year, bk).value.papers);
    }
  }

  /** A year that ran joins its papers to the union, the union being only its papers in the first year. */
  lemma YearJoin(start: int, n: nat, run: YearFetch, b: nat, year: int, acc: map<Term, E.Entity>, bk: nat, h: Harvest)
    requires KeyedRuns(run) && Years(start, n, run, b) == Ok((acc, bk)) && year == start + n && run(year, bk) == Ok(h)
    ensures Years(start, n + 1, run, b) == Ok((h.papers + acc, h.next))
    ensures (h.papers + acc).Values == if year == start then h.papers.Values else UnionEq(acc.Values, h.papers.Values)
  {
    YearsNext(start, n, run, b, year, acc, bk);
    if year == start {
      YearsNone(start, n, run, b, acc, bk);
      assert h.papers + acc == h.papers;
    }
  }

  /** Once a year has raised, the later years change nothing. */
  lemma {:induction false} YearsRaised(start: int, n: nat, run: YearFetch, b: nat, k: nat)
    requires KeyedRuns(run) && k <= n && Years(start, k, run, b).Err?
    ensures Years(start, n, run, b) == Years(start, k, run, b)
    decreases n
  {
    if k < n {
      YearsRaised(start, n - 1, run, b, k);
    }
  }

  /** One year of `dblp_most_cited_articles`: its papers fetched and joined to the union so far. */
  method YearTurn(start: int, year: int, limit: int, sparql: Sparql, src: K.Source, blanks: BlankNodes,
                  ghost sd: E.SourceData, ghost b0: nat, ghost k: nat, ghost acc: map<Term, E.Entity>, results: set<E.Entity>)
    returns (r: Result<set<E.Entity>>, ghost acc': map<Term, E.Entity>)
    requires src.Build() == sd && year == start + k && KeyedRuns(PerYearFetch(limit, sparql, sd))
    requires Years(start, k, PerYearFetch(limit, sparql, sd), b0) == Ok((acc, blanks.next)) && results == acc.Values
    modifies blanks
    ensures r.Err? ==> Years(start, k + 1, PerYearFetch(limit, sparql, sd), b0).Err? &&
                       r.error == Years(start, k + 1, PerYearFetch(limit, sparql, sd), b0).error
    ensures r.Ok? ==> Years(start, k + 1, PerYearFetch(limit, sparql, sd), b0) == Ok((acc', blanks.next)) && r.value == acc'.Values
  {
    ghost var run := PerYearFetch(limit, sparql, sd);
    ghost var bk := blanks.next;
    YearsNext(start, k, run, b0, year, acc, bk);
    var found := GetArticlePerYear(year, limit, 0, sparql, src, blanks, sd);
    assert run(year, bk) == YearRun(year, limit, 0, sparql, sd, bk);
    if found.Err? {
      return Err(found.error), acc;
    }
    ghost var h := run(year, bk).value;
    YearJoin(start, k, run, b0, year, acc, bk, h);
    acc' := h.papers + acc;
    if year == start {
      r := Ok(found.value);
    } else {
      r := Ok(UnionEq(results, found.value));
    }
  }

  /** The loop of `dblp_most_cited_articles` ends having covered every year. */
  lemma YearsCovered(start: int, current: int, year: int, k: nat)
    requires k == year - start && 1 <= k <= YearsOf(start, current) && current < year
    ensures k == YearsOf(start, current)
  {
  }

  /**
   * What `dblp_most_cited_articles` computes: the years from `startYear`
   * through `currentYear`, each fetched with the module's `Source`.
   */
  function MostCited(startYear: int, currentYear: int, limit: int, sparql: Sparql, src: E.SourceData, b: nat)
    : (r: Result<(map<Term, E.Entity>, nat)>)
    ensures r.Ok? ==> Keyed(r.value.0) && b <= r.value.1
  {
    PerYearKeyed(limit, sparql, src);
    Years(startYear, YearsOf(startYear, currentYear), PerYearFetch(limit, sparql, src), b)
  }

  /**
   * `dblp_most_cited_articles`: the union of the per-year sets for every
   * year from `startYear` through `currentYear`, the first raising year
   * ending it. `src` is the module's `Source` object, made once on import
   * as `K.Source(DBLP_ENDPOINT, ...)`; the current year is a parameter.
   */
  method DblpMostCitedArticles(startYear: int, currentYear: int, sparqlLimit: int, sparql: Sparql,
                               src: K.Source, blanks: BlankNodes, ghost sd: E.SourceData)
    returns (r: Result<set<E.Entity>>)
    requires src.Build() == sd
    modifies blanks
    ensures var run := MostCited(startYear, currentYear, sparqlLimit, sparql, sd, old(blanks.next));
      (r.Ok? <==> run.Ok?) && (r.Ok? ==> r.value == run.value.0.Values && blanks.next == run.value.1) &&
      (r.Err? ==> r.error == run.error)
  {
    ghost var b0 := blanks.next;
    ghost var n := YearsOf(startYear, currentYear);
    ghost var run := PerYearFetch(sparqlLimit, sparql, sd);
    PerYearKeyed(sparqlLimit, sparql, sd);
    assert MostCited(startYear, currentYear, sparqlLimit, sparql, sd, b0) == Years(startYear, n, run, b0);
    ghost var k: nat := 0;
    var results, acc := YearTurn(startYear, startYear, sparqlLimit, sparql, src, blanks, sd, b0, k, map[], {});
    if results.Err? {
      YearsRaised(startYear, n, run, b0, k + 1);
      return Err(results.error);
    }
    var year := startYear + 1;
    k := k + 1;
    while year <= currentYear
      invariant k == year - startYear && 1 <= k <= n
      invariant Years(startYear, k, run, b0) == Ok((acc, blanks.next))
      invariant results.Ok? && results.value == acc.Values
    {
      var next, acc' := YearTurn(startYear, year, sparqlLimit, sparql, src, blanks, sd, b0, k, acc, results.value);
      if next.Err? {
        YearsRaised(startYear, n, run, b0, k + 1);
        return next;
      }
      results, acc := next, acc';
      year, k := year + 1, k + 1;
    }
    YearsCovered(startYear, currentYear, year, k);
    r := results;
  }
}
