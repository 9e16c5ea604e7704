/**
 * `process_hal_organization`: the organizations of the HAL SPARQL
 * endpoint, read once through the cache directory, each projected into the
 * organization graph.
 *
 * The graph starts with whatever the Turtle files of the organization
 * directory held (their parsing is not modelled: the graph is handed in).
 * Each result row names an organization, its label, an identifier and,
 * optionally, an acronym and a parent organization. The organization is
 * always projected, but it is enriched (identifier, label, retrieval
 * literal, acronym, parent) only when the graph, as it stands when the row
 * is reached, does not already type its URI as `hal:Organization`.
 */
module HalOrganizations {
  import opened Wrappers
  import opened Rdf
  import opened Utilities
  import opened Fetch
  import opened Hal
  import E = Entities
  import K = Knowledge

  const ORG_ENDPOINT := "http://sparql.archives-ouvertes.fr/sparql"
  const ORG_CACHE := "data/hal/organization/"
  const HAL_ORGANIZATION := Iri(HAL_NS + "Organization")

  /** The optional `org:unitOf` group: the parent, its identifier and its label, bound together. */
  datatype Parent = Parent(org: string, id: string, labelText: string)

  /** One row of the query: `?org ?label ?id`, the optional `?acronym` and the optional parent group. */
  datatype OrgRow = OrgRow(org: string, labelText: string, id: string, acronym: Option<string>, parent: Option<Parent>)

  /**
   * The parent organization of an enriched row, from blank `b` on: its
   * URI text and its identifier's go through `create_uri`, and
   * `Organization.Builder` labels it with the text of that URI.
   */
  function ParentEntity(p: Parent, src: E.SourceData, lit: Literal, b: nat, mint: Minter): (o: E.Entity)
    ensures o.Organization? && o.labelText == p.labelText && o.retrievedFrom == Some(lit) && o.source == src
    ensures o.uri == CreateUri(Text(mint(p.org, b)), b + 2)
    ensures o.identifiers == {E.NewIdentifier(src, mint(p.id, b + 1))}
    ensures o.related == [] && o.alternatives == {}
  {
    E.Organization(CreateUri(Text(mint(p.org, b)), b + 2), {}, p.labelText, src, Some(lit), [], {}, {},
                   E.Insert({}, E.NewIdentifier(src, mint(p.id, b + 1))))
  }

  /** The alternatives an enriched row adds: its acronym, when bound. */
  function Acronyms(row: OrgRow): (alts: set<string>)
    ensures row.acronym.None? <==> alts == {}
    ensures row.acronym.Some? ==> alts == {row.acronym.value}
  {
    if row.acronym.Some? then {row.acronym.value} else {}
  }

  /** The related list of an enriched row: its parent, when bound. */
  function Parents(row: OrgRow, src: E.SourceData, lit: Literal, b: nat, mint: Minter): (rs: seq<E.Entity>)
    ensures row.parent.None? <==> rs == []
    ensures row.parent.Some? ==> rs == [ParentEntity(row.parent.value, src, lit, b, mint)]
  {
    if row.parent.Some? then [ParentEntity(row.parent.value, src, lit, b, mint)] else []
  }

  /** The URI `create_uri(str(binding['org']))` gives a row, from blank `b` on. */
  function RowUri(row: OrgRow, b: nat, mint: Minter): Term
  {
    mint(row.org, b)
  }

  /** The graph already types the row's URI as a HAL organization: enrichment is skipped. */
  predicate Known(row: OrgRow, b: nat, mint: Minter, known: set<Triple>)
  {
    (RowUri(row, b, mint), RDF_TYPE, HAL_ORGANIZATION) in known
  }

  /** `Organization.Builder(source, org_uri).build()` with nothing added: the organization of a skipped row. */
  function BareOrg(row: OrgRow, src: E.SourceData, b: nat, mint: Minter): (o: E.Entity)
    ensures o.Organization? && o.source == src && o.retrievedFrom == None
    ensures o.labelText == Text(RowUri(row, b, mint))
    ensures o.identifiers == {} && o.alternatives == {} && o.related == []
  {
    E.NewOrganization(src, Text(RowUri(row, b, mint)), b + 2)
  }

  /** The organization of an enriched row: identifier, retrieval literal, label, acronym and parent. */
  function EnrichedOrg(row: OrgRow, src: E.SourceData, lit: Literal, b: nat, mint: Minter): (o: E.Entity)
    ensures o.Organization? && o.source == src && o.retrievedFrom == Some(lit)
    ensures o.uri == BareOrg(row, src, b, mint).uri && o.labelText == row.labelText
    ensures o.identifiers == {E.NewIdentifier(src, mint(row.id, b + 1))}
    ensures o.alternatives == Acronyms(row) && o.related == Parents(row, src, lit, b + 3, mint)
  {
    E.Organization(BareOrg(row, src, b, mint).uri, {}, row.labelText, src, Some(lit), Parents(row, src, lit, b + 3, mint), {},
                   Acronyms(row), E.Insert({}, E.NewIdentifier(src, mint(row.id, b + 1))))
  }

  /** An organization after the identifier, retrieval literal, label and acronym of `row` are set. */
  function Labelled(e: E.Entity, row: OrgRow, lit: Literal, id: E.Entity): E.Entity
    requires e.Organization?
  {
    E.Organization(e.uri, e.comments, row.labelText, e.source, Some(lit), e.related, e.locations,
                   e.alternatives + Acronyms(row), E.Insert(e.identifiers, id))
  }

  /** The blanks a row draws: three, and three more for the parent of an enriched row. */
  function OrgBlanks(row: OrgRow, enriched: bool): nat
  {
    if enriched && row.parent.Some? then 6 else 3
  }

  /**
   * The turn of one row against the graph `known` as it stands, from blank
   * `b` on: the organization built and the blanks drawn. A row whose URI
   * the graph already types as `hal:Organization` is not enriched, and its
   * organization is projected all the same.
   */
  function OrgTurn(row: OrgRow, src: E.SourceData, lit: Literal, b: nat, mint: Minter, known: set<Triple>): (turn: (E.Entity, nat))
    ensures Known(row, b, mint, known) <==> turn.0 == BareOrg(row, src, b, mint)
    ensures !Known(row, b, mint, known) <==> turn.0 == EnrichedOrg(row, src, lit, b, mint)
    ensures turn.1 == OrgBlanks(row, !Known(row, b, mint, known))
  {
    if Known(row, b, mint, known) then (BareOrg(row, src, b, mint), OrgBlanks(row, false))
    else (EnrichedOrg(row, src, lit, b, mint), OrgBlanks(row, true))
  }

  /** The turn of the row loop. */
  function OrgStep(src: E.SourceData, lit: Literal, mint: Minter): (OrgRow, nat, set<Triple>) -> (seq<E.Entity>, nat)
  {
    (row, b, known) => ([OrgTurn(row, src, lit, b, mint, known).0], OrgTurn(row, src, lit, b, mint, known).1)
  }

  /**
   * The rows in turn, from the graph `base` and blank `b` on: the graph
   * after the last row and the next blank. Each row is checked against
   * the graph the earlier rows left.
   */
  function OrgRun(rows: seq<OrgRow>, src: E.SourceData, lit: Literal, b: nat, mint: Minter, base: set<Triple>): (set<Triple>, nat)
  {
    GraphTurns(rows, b, base, OrgStep(src, lit, mint), E.Triples)
  }

  /** Each row draws three blanks, six when it is enriched and has a parent. */
  lemma {:induction false} OrgRunBlanks(rows: seq<OrgRow>, src: E.SourceData, lit: Literal, b: nat, mint: Minter, base: set<Triple>)
    ensures b + 3 * |rows| <= OrgRun(rows, src, lit, b, mint, base).1 <= b + 6 * |rows|
    decreases |rows|
  {
    if rows != [] {
      var n := |rows| - 1;
      OrgRunBlanks(rows[..n], src, lit, b, mint, base);
      var prev := OrgRun(rows[..n], src, lit, b, mint, base);
      var turn := OrgTurn(rows[n], src, lit, prev.1, mint, prev.0);
      assert OrgStep(src, lit, mint)(rows[n], prev.1, prev.0).1 == turn.1;
    }
  }

  /**
   * The organization of every row is projected into the graph, enriched or
   * not, and whatever the graph held before stays: the graph after the
   * rows holds the starting graph and the projection of the organization
   * of row `i`, as built against the graph the rows before it left.
   */
  lemma OrgRunProjects(rows: seq<OrgRow>, i: nat, src: E.SourceData, lit: Literal, b: nat, mint: Minter, base: set<Triple>)
    requires i < |rows|
    ensures var prev := OrgRun(rows[..i], src, lit, b, mint, base);
      var run := OrgRun(rows, src, lit, b, mint, base);
      base <= run.0 && E.Triples(OrgTurn(rows[i], src, lit, prev.1, mint, prev.0).0) <= run.0
  {
    var step := OrgStep(src, lit, mint);
    var prev := GraphTurns(rows[..i], b, base, step, E.Triples);
    GraphTurnsGrows(rows, b, base, step, E.Triples);
    GraphTurnsKeep(rows, i, b, base, step, E.Triples);
    var turn := OrgTurn(rows[i], src, lit, prev.1, mint, prev.0);
    assert step(rows[i], prev.1, prev.0).0 == [turn.0];
    ProjectedOne(turn.0, E.Triples);
  }

  /**
   * A row whose URI the starting graph already types as `hal:Organization`
   * is never enriched: the graph only grows, so the type triple is still
   * there when the row is reached.
   */
  lemma OrgRunSkipsKnown(rows: seq<OrgRow>, i: nat, src: E.SourceData, lit: Literal, b: nat, mint: Minter, base: set<Triple>)
    requires i < |rows|
    requires (RowUri(rows[i], OrgRun(rows[..i], src, lit, b, mint, base).1, mint), RDF_TYPE, HAL_ORGANIZATION) in base
    ensures var prev := OrgRun(rows[..i], src, lit, b, mint, base);
      OrgTurn(rows[i], src, lit, prev.1, mint, prev.0) == (BareOrg(rows[i], src, prev.1, mint), 3)
  {
    GraphTurnsGrows(rows[..i], b, base, OrgStep(src, lit, mint), E.Triples);
  }

  /** `Identifier.Builder(source, uri).build()`. */
  method NewPlainIdentifier(src: K.Source, uri: Term) returns (id: E.Entity)
    ensures id == E.NewIdentifier(src.Build(), uri)
  {
    var identifier := new K.UniqueIdentifier(src, uri);
    id := identifier.Build();
  }

  /** The parent group of an enriched row, built, on three fresh blanks. */
  method NewParent(p: Parent, src: K.Source, lit: Literal, blanks: BlankNodes, mint: Minter) returns (o: E.Entity)
    modifies blanks
    ensures o == ParentEntity(p, src.Build(), lit, old(blanks.next), mint)
    ensures blanks.next == old(blanks.next) + 3
  {
    var bu := blanks.Fresh();
    var uri := mint(p.org, bu);
    var bi := blanks.Fresh();
    var idUri := mint(p.id, bi);
    var bo := blanks.Fresh();
    var parent := new K.Organization(src, Text(uri), bo);
    var id := NewPlainIdentifier(src, idUri);
    LabelParent(parent, p, lit, id, parent.Build());
    o := parent.Build();
  }

  /** The parent after its identifier, label and retrieval literal are set. */
  method LabelParent(parent: K.Organization, p: Parent, lit: Literal, id: E.Entity, ghost e: E.Entity)
    requires e.Organization? && parent.Build() == e
    modifies parent`identifiers, parent.thing`labelText, parent.thing`retrievedFrom
    ensures parent.Build() == E.Organization(e.uri, e.comments, p.labelText, e.source, Some(lit), e.related, e.locations,
                                             e.alternatives, E.Insert(e.identifiers, id))
  {
    parent.AddIdentifier(id);
    parent.thing.SetLabel(p.labelText);
    parent.thing.SetRetrievedFrom(lit);
  }

  /** The enrichment of a row's organization: the `if` body of the row loop. */
  method Enrich(org: K.Organization, row: OrgRow, src: K.Source, lit: Literal, id: E.Entity, blanks: BlankNodes, mint: Minter,
                ghost sd: E.SourceData, ghost b: nat)
    requires src.Build() == sd
    requires org.Build() == BareOrg(row, sd, b, mint) && id == E.NewIdentifier(sd, mint(row.id, b + 1))
    requires blanks.next == b + 3
    modifies org`identifiers, org`alternatives, org.thing`labelText, org.thing`retrievedFrom, org.thing`related, blanks
    ensures org.Build() == EnrichedOrg(row, sd, lit, b, mint)
    ensures blanks.next == b + OrgBlanks(row, true)
  {
    ghost var e := Labelled(BareOrg(row, sd, b, mint), row, lit, id);
    Label(org, row, lit, id, BareOrg(row, sd, b, mint));
    AttachParent(org, row, src, lit, blanks, mint, sd, b + 3, e);
    EnrichedFromLabelled(row, sd, lit, b, mint, id, e);
  }

  /** The parent, when the row names one, drawn from blank `bp` on and related to the organization. */
  method AttachParent(org: K.Organization, row: OrgRow, src: K.Source, lit: Literal, blanks: BlankNodes, mint: Minter,
                      ghost sd: E.SourceData, ghost bp: nat, ghost e: E.Entity)
    requires src.Build() == sd && blanks.next == bp
    requires e.Organization? && org.Build() == e
    modifies org.thing`related, blanks
    ensures org.Build() == WithParents(e, Parents(row, sd, lit, bp, mint))
    ensures blanks.next == bp + (if row.parent.Some? then 3 else 0)
  {
    if row.parent.Some? {
      var parent := NewParent(row.parent.value, src, lit, blanks, mint);
      org.thing.AddRelated(parent);
    }
  }

  /** An organization whose related list is extended by `parents`. */
  function WithParents(e: E.Entity, parents: seq<E.Entity>): E.Entity
    requires e.Organization?
  {
    E.Organization(e.uri, e.comments, e.labelText, e.source, e.retrievedFrom, e.related + parents, e.locations,
                   e.alternatives, e.identifiers)
  }

  /** Labelling the bare organization of a row and attaching its parents gives the enriched organization. */
  lemma EnrichedFromLabelled(row: OrgRow, sd: E.SourceData, lit: Literal, b: nat, mint: Minter, id: E.Entity, e: E.Entity)
    requires id == E.NewIdentifier(sd, mint(row.id, b + 1))
    requires e == Labelled(BareOrg(row, sd, b, mint), row, lit, id)
    ensures WithParents(e, Parents(row, sd, lit, b + 3, mint)) == EnrichedOrg(row, sd, lit, b, mint)
  {
  }

  /** The identifier, retrieval literal, label and acronym of an enriched row. */
  method Label(org: K.Organization, row: OrgRow, lit: Literal, id: E.Entity, ghost e: E.Entity)
    requires e.Organization? && org.Build() == e
    modifies org`identifiers, org`alternatives, org.thing`labelText, org.thing`retrievedFrom
    ensures org.Build() == Labelled(e, row, lit, id)
  {
    org.AddIdentifier(id);
    org.thing.SetRetrievedFrom(lit);
    org.thing.SetLabel(row.labelText);
    AddAcronym(org, row);
  }

  /** `add_alternative(Literal(binding['acronym']))`, when the acronym is bound. */
  method AddAcronym(org: K.Organization, row: OrgRow)
    modifies org`alternatives
    ensures org.alternatives == old(org.alternatives) + Acronyms(row)
  {
    if row.acronym.Some? {
      org.AddAlternative(row.acronym.value);
    }
  }

  /**
   * The three `create_uri` calls of a row (its URI, its identifier's URI,
   * and the one `Organization.Builder` makes of the text of its URI) and
   * the organization and identifier built from them.
   */
  method NewBareOrg(row: OrgRow, src: K.Source, blanks: BlankNodes, mint: Minter, ghost sd: E.SourceData)
    returns (org: K.Organization, uri: Term, id: E.Entity)
    requires src.Build() == sd
    modifies blanks
    ensures fresh(org.thing) && fresh(org.agent)
    ensures uri == RowUri(row, old(blanks.next), mint)
    ensures org.Build() == BareOrg(row, sd, old(blanks.next), mint)
    ensures id == E.NewIdentifier(sd, mint(row.id, old(blanks.next) + 1))
    ensures blanks.next == old(blanks.next) + 3
  {
    var bu := blanks.Fresh();
    uri := mint(row.org, bu);
    var bi := blanks.Fresh();
    var idUri := mint(row.id, bi);
    var bo := blanks.Fresh();
    org := new K.Organization(src, Text(uri), bo);
    id := NewPlainIdentifier(src, idUri);
  }

  /** The organization of `row`, built against the graph as it stands. */
  method NewRowOrganization(row: OrgRow, src: K.Source, lit: Literal, g: Graph, blanks: BlankNodes, mint: Minter, ghost sd: E.SourceData)
    returns (org: K.Organization)
    requires src.Build() == sd
    modifies blanks
    ensures var turn := OrgTurn(row, sd, lit, old(blanks.next), mint, g.triples);
      org.Build() == turn.0 && blanks.next == old(blanks.next) + turn.1
  {
    ghost var b := blanks.next;
    var uri, id;
    org, uri, id := NewBareOrg(row, src, blanks, mint, sd);
    if (uri, RDF_TYPE, HAL_ORGANIZATION) !in g.triples {
      Enrich(org, row, src, lit, id, blanks, mint, sd, b);
    }
  }

  /**
   * The body of the row loop: the organization of `row` is built, enriched
   * unless the graph already types its URI as `hal:Organization`, and
   * projected into the graph.
   */
  method OrgToRdf(row: OrgRow, src: K.Source, lit: Literal, g: Graph, blanks: BlankNodes, mint: Minter, ghost sd: E.SourceData)
    requires src.Build() == sd
    modifies g`triples, blanks
    ensures var turn := OrgStep(sd, lit, mint)(row, old(blanks.next), old(g.triples));
      && g.triples == old(g.triples) + Projected(turn.0, E.Triples)
      && blanks.next == old(blanks.next) + turn.1
  {
    ghost var turn := OrgTurn(row, sd, lit, blanks.next, mint, g.triples);
    assert OrgStep(sd, lit, mint)(row, blanks.next, g.triples) == ([turn.0], turn.1);
    var org := NewRowOrganization(row, src, lit, g, blanks, mint, sd);
    org.ToRdf(g);
    ProjectedOne(org.Build(), E.Triples);
  }

  /** `for binding in hal_org_results: ...`: each row in turn against the graph the earlier rows left. */
  method OrgRowsToRdf(rows: seq<OrgRow>, src: K.Source, lit: Literal, g: Graph, blanks: BlankNodes, mint: Minter, ghost sd: E.SourceData)
    requires src.Build() == sd
    modifies g`triples, blanks
    ensures (g.triples, blanks.next) == OrgRun(rows, sd, lit, old(blanks.next), mint, old(g.triples))
  {
    ghost var step := OrgStep(sd, lit, mint);
    ghost var b0, base := blanks.next, g.triples;
    var i := 0;
    while i < |rows|
      invariant 0 <= i <= |rows|
      invariant g.triples == GraphTurns(rows[..i], b0, base, step, E.Triples).0
      invariant blanks.next == GraphTurns(rows[..i], b0, base, step, E.Triples).1
    {
      OrgRowTurn(rows, i, src, lit, g, blanks, mint, sd, b0, base);
      i := i + 1;
    }
    GraphTurnsAll(rows, i, b0, base, step, E.Triples);
  }

  /** One turn of the row loop, stated as the loop's invariant one row further on. */
  method OrgRowTurn(rows: seq<OrgRow>, i: nat, src: K.Source, lit: Literal, g: Graph, blanks: BlankNodes, mint: Minter,
                    ghost sd: E.SourceData, ghost b0: nat, ghost base: set<Triple>)
    requires src.Build() == sd && i < |rows|
    requires g.triples == GraphTurns(rows[..i], b0, base, OrgStep(sd, lit, mint), E.Triples).0
    requires blanks.next == GraphTurns(rows[..i], b0, base, OrgStep(sd, lit, mint), E.Triples).1
    modifies g`triples, blanks
    ensures g.triples == GraphTurns(rows[..i + 1], b0, base, OrgStep(sd, lit, mint), E.Triples).0
    ensures blanks.next == GraphTurns(rows[..i + 1], b0, base, OrgStep(sd, lit, mint), E.Triples).1
  {
    GraphTurnsNext(rows, i, b0, base, OrgStep(sd, lit, mint), E.Triples);
    OrgToRdf(rows[i], src, lit, g, blanks, mint, sd);
  }

  /**
   * `process_hal_organization`, after the organization files are loaded
   * into `g`: the rows of `query` are cache-or-fetched, a Source is built
   * for the endpoint, and each row's organization is projected into `g`
   * with `query` as its retrieval literal.
   */
  method ProcessHalOrganization(api: Endpoint<seq<OrgRow>>, cache: CacheDir<seq<OrgRow>>, query: string,
                                refreshed: string, retrieved: string, g: Graph, blanks: BlankNodes, mint: Minter)
    returns (rows: seq<OrgRow>)
    modifies api`requests, cache`files, g`triples, blanks
    ensures rows == cache.Fetched(old(cache.files), query, api.respond)
    ensures cache.files == cache.CachedAfter(old(cache.files), query, api.respond)
    ensures api.requests == old(api.requests) + cache.Missed(old(cache.files), query)
    ensures (g.triples, blanks.next)
         == OrgRun(rows, E.NewSource(ORG_ENDPOINT, refreshed, retrieved), Plain(query), old(blanks.next), mint, old(g.triples))
  {
    rows := cache.Fetch(query, api);
    var src := new K.Source(ORG_ENDPOINT, refreshed, retrieved);
    OrgRowsToRdf(rows, src, Plain(query), g, blanks, mint, src.Build());
  }
}
