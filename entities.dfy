/**
 * The knowledge-graph entities of kg/knowledge.py as values: the state an
 * entity object holds once built, its `__eq__` rule, set insertion under
 * that rule, and the triples its `to_rdf` adds to a graph.
 *
 * Python's class hierarchy RDFResource > Thing > {UniqueIdentifier,
 * Resource > {Repository, Paper, Software}, Agent > {Person, Organization}}
 * becomes one datatype whose constructors share the fields of the classes
 * they inherit from; `Own` composes the triples of each level as the
 * `super().to_rdf(graph)` chain does.
 */
module Entities {
  import opened Wrappers
  import opened Rdf
  import opened Utilities

  /** A Source: the service a record was harvested from. */
  datatype SourceData = SourceData(
    uri: Term,
    comments: set<string>,
    importedFrom: Literal,
    lastRefreshedOn: string,
    retrievedOn: string)

  /** A CitationCount: a blank node carrying a citation count. */
  datatype CitationData = CitationData(
    uri: Term,
    comments: set<string>,
    count: int,
    source: SourceData,
    date: Option<string>)

  /** A person's ORCID: a URIRef, or any other string. */
  datatype Orcid = OrcidIri(iri: string) | OrcidText(text: string)

  datatype Entity =
    | Identifier(
        uri: Term, comments: set<string>, labelText: string, source: SourceData,
        retrievedFrom: Option<Literal>, related: seq<Entity>)
    | Repository(
        uri: Term, comments: set<string>, labelText: string, source: SourceData,
        retrievedFrom: Option<Literal>, related: seq<Entity>,
        abstractText: Option<string>, license: Option<string>, keywords: set<string>,
        created: Option<string>, modified: Option<string>, version: Option<string>,
        referencedBy: set<Entity>, identifiers: set<Entity>)
    | Paper(
        uri: Term, comments: set<string>, labelText: string, source: SourceData,
        retrievedFrom: Option<Literal>, related: seq<Entity>,
        abstractText: Option<string>, license: Option<string>, keywords: set<string>,
        created: Option<string>, modified: Option<string>, version: Option<string>,
        referencedBy: set<Entity>, identifiers: set<Entity>,
        title: Option<string>, authors: set<Entity>, publicationDate: Option<string>,
        venue: Option<Term>, doi: Option<Term>, relatedWorks: set<Entity>,
        citations: set<CitationData>, repositories: set<Term>, downloadUrls: set<string>)
    | Software(
        uri: Term, comments: set<string>, labelText: string, source: SourceData,
        retrievedFrom: Option<Literal>, related: seq<Entity>,
        abstractText: Option<string>, license: Option<string>, keywords: set<string>,
        created: Option<string>, modified: Option<string>, version: Option<string>,
        referencedBy: set<Entity>, identifiers: set<Entity>,
        creators: set<Entity>, languages: set<string>, platforms: set<string>,
        codeRepositories: set<string>, availableAt: set<string>,
        publication: Option<string>, rights: Option<string>)
    | Person(
        uri: Term, comments: set<string>, labelText: string, source: SourceData,
        retrievedFrom: Option<Literal>, related: seq<Entity>,
        locations: set<Term>,
        firstName: Option<string>, lastName: Option<string>, alternatives: set<string>,
        orcid: Option<Orcid>, affiliations: set<Entity>, identifiers: set<Entity>,
        contacts: set<Term>)
    | Organization(
        uri: Term, comments: set<string>, labelText: string, source: SourceData,
        retrievedFrom: Option<Literal>, related: seq<Entity>,
        locations: set<Term>,
        alternatives: set<string>, identifiers: set<Entity>)

  predicate IsResource(e: Entity) { e.Repository? || e.Paper? || e.Software? }

  predicate IsAgent(e: Entity) { e.Person? || e.Organization? }

  // ---------------------------------------------------------------------
  // Freshly constructed objects

  /** `Source(uri)`: importedFrom is the literal of the URI; the two clock reads are parameters. */
  function NewSource(uri: string, refreshed: string, retrieved: string): SourceData
  {
    SourceData(Iri(uri), {}, Plain(uri), refreshed, retrieved)
  }

  /** `CitationCount(count, source)` on the fresh blank node `Blank(blank)`. */
  function NewCitation(count: int, src: SourceData, blank: nat): CitationData
  {
    CitationData(Blank(blank), {}, count, src, None)
  }

  function NewIdentifier(src: SourceData, uri: Term): Entity
  {
    Identifier(uri, {}, Text(uri), src, None, [])
  }

  function NewRepository(src: SourceData, uri: Term): Entity
  {
    Repository(uri, {}, Text(uri), src, None, [], None, None, {}, None, None, None, {}, {})
  }

  function NewPaper(src: SourceData, uri: Term): Entity
  {
    Paper(uri, {}, Text(uri), src, None, [], None, None, {}, None, None, None, {}, {},
          None, {}, None, None, None, {}, {}, {}, {})
  }

  function NewSoftware(src: SourceData, uri: Term): Entity
  {
    Software(uri, {}, Text(uri), src, None, [], None, None, {}, None, None, None, {}, {},
             {}, {}, {}, {}, {}, None, None)
  }

  function NewPerson(src: SourceData, uri: Term): Entity
  {
    Person(uri, {}, Text(uri), src, None, [], {}, None, None, {}, None, {}, {}, {})
  }

  /** `Organization(source, label)`: the URI is `create_uri(label)`, the label is `label`. */
  function NewOrganization(src: SourceData, labelText: string, blank: nat): Entity
  {
    Organization(CreateUri(labelText, blank), {}, labelText, src, None, [], {}, {}, {})
  }

  // ---------------------------------------------------------------------
  // Equality and set insertion

  /** `Thing.__eq__`, evaluated on `self`: URIs when self's URI is a URIRef, labels otherwise. */
  predicate ThingEq(self: Entity, other: Entity)
  {
    if self.uri.Iri? then self.uri == other.uri else self.labelText == other.labelText
  }

  /** The `__eq__` of each class, evaluated on the element already held. */
  predicate Equal(self: Entity, other: Entity)
  {
    match self
    case Organization(_, _, _, _, _, _, _, _, _) => other.Organization? && ThingEq(self, other)
    case Paper(_, _, _, _, _, _, _, _, _, _, _, _, _, _, _, _, _, _, _, _, _, _, _) =>
      other.Paper? && self.uri == other.uri
    case _ => ThingEq(self, other)
  }

  /** `CitationCount.__eq__`: same source (by URI), count and date. */
  predicate CitationEq(self: CitationData, other: CitationData)
  {
    self.source.uri == other.source.uri && self.count == other.count && self.date == other.date
  }

  /** `s` holds `x` or an entity equal to it: what `x in s` means for a Python set. */
  predicate Holds(s: set<Entity>, x: Entity)
  {
    exists y :: y in s && Equal(y, x)
  }

  /** A set that keeps what another holds holds what the other holds. */
  lemma HoldsGrows(s: set<Entity>, t: set<Entity>, x: Entity)
    requires s <= t && Holds(s, x)
    ensures Holds(t, x)
  {
    var y :| y in s && Equal(y, x);
    assert y in t;
  }

  /**
   * `s.add(x)` for a set of entities: nothing is added when an element
   * equal to `x` is held, and afterwards `x` is held.
   */
  function Insert(s: set<Entity>, x: Entity): (r: set<Entity>)
    ensures s <= r <= s + {x}
    ensures Holds(s, x) <==> r == s
    ensures x in r || r == s
    ensures Holds(r, x)
  {
    if Holds(s, x) then s else EqualReflexive(x); s + {x}
  }

  /** `s.add(x)` for a set of citation counts. */
  function InsertCitation(s: set<CitationData>, x: CitationData): (r: set<CitationData>)
    ensures s <= r <= s + {x}
    ensures (exists y :: y in s && CitationEq(y, x)) <==> r == s
  {
    if exists y :: y in s && CitationEq(y, x) then s else s + {x}
  }

  lemma EqualReflexive(x: Entity)
    ensures Equal(x, x)
  {
  }

  /** Adding an entity already held leaves the set unchanged; adding twice is adding once. */
  lemma InsertPresent(s: set<Entity>, x: Entity)
    ensures x in s ==> Insert(s, x) == s
    ensures Insert(Insert(s, x), x) == Insert(s, x)
  {
    EqualReflexive(x);
  }

  /**
   * `s` after `add(s, x)` for each `x` of `xs` in turn. The adding step is a
   * parameter so that the laws of the loop are proved once, for any step.
   */
  function AddedAll<T>(s: set<T>, xs: seq<T>, add: (set<T>, T) -> set<T>): set<T>
    decreases |xs|
  {
    if xs == [] then s else add(AddedAll(s, xs[..|xs| - 1], add), xs[|xs| - 1])
  }

  /** One more turn adds the element of that turn. */
  lemma AddedAllNext<T>(s: set<T>, xs: seq<T>, add: (set<T>, T) -> set<T>, i: nat)
    requires i < |xs|
    ensures AddedAll(s, xs[..i + 1], add) == add(AddedAll(s, xs[..i], add), xs[i])
  {
    assert xs[..i + 1][..i] == xs[..i];
  }

  /** Two loops in a row are one loop over both sequences. */
  lemma {:induction false} AddedAllAppend<T>(s: set<T>, xs: seq<T>, ys: seq<T>, add: (set<T>, T) -> set<T>)
    ensures AddedAll(AddedAll(s, xs, add), ys, add) == AddedAll(s, xs + ys, add)
    decreases |ys|
  {
    if ys == [] {
      assert xs + ys == xs;
    } else {
      var n := |ys| - 1;
      AddedAllAppend(s, xs, ys[..n], add);
      assert (xs + ys)[..|xs| + n] == xs + ys[..n];
      assert (xs + ys)[|xs| + n] == ys[n];
    }
  }

  /** A step that never removes anything. */
  ghost predicate Keeps<T(!new)>(add: (set<T>, T) -> set<T>)
  {
    forall t, x :: t <= add(t, x)
  }

  /** The loop never loses what `s` held. */
  lemma {:induction false} AddedAllGrows<T(!new)>(s: set<T>, xs: seq<T>, add: (set<T>, T) -> set<T>, k: nat)
    requires Keeps(add) && k <= |xs|
    ensures s <= AddedAll(s, xs[..k], add) <= AddedAll(s, xs, add)
    decreases |xs|
  {
    if xs != [] {
      var n := |xs| - 1;
      assert add(AddedAll(s, xs[..n], add), xs[n]) == AddedAll(s, xs, add);
      if k <= n {
        AddedAllGrows(s, xs[..n], add, k);
        assert xs[..n][..k] == xs[..k];
      } else {
        AddedAllGrows(s, xs[..n], add, n);
        assert xs[..n][..n] == xs[..n];
        assert xs[..k] == xs;
      }
    }
  }

  /**
   * When each step leaves its element held and holding survives growth,
   * every element of the loop is held at its end.
   */
  lemma {:induction false} AddedAllHolds<T(!new)>(s: set<T>, xs: seq<T>, add: (set<T>, T) -> set<T>,
                                           holds: (set<T>, T) -> bool, i: nat)
    requires Keeps(add) && i < |xs|
    requires forall t, x :: holds(add(t, x), x)
    requires forall t, u, x :: t <= u && holds(t, x) ==> holds(u, x)
    ensures holds(AddedAll(s, xs, add), xs[i])
    decreases |xs|
  {
    var n := |xs| - 1;
    if i < n {
      AddedAllHolds(s, xs[..n], add, holds, i);
      assert xs[..n][i] == xs[i];
      assert AddedAll(s, xs[..n], add) <= AddedAll(s, xs, add);
    }
  }

  /** When each step adds at most its element, the loop adds only elements of `xs`. */
  lemma {:induction false} AddedAllOnly<T(!new)>(s: set<T>, xs: seq<T>, add: (set<T>, T) -> set<T>, y: T)
    requires forall t, x :: add(t, x) <= t + {x}
    requires y in AddedAll(s, xs, add)
    ensures y in s || y in xs
    decreases |xs|
  {
    if xs != [] {
      var n := |xs| - 1;
      if y != xs[n] {
        AddedAllOnly(s, xs[..n], add, y);
        if y in xs[..n] {
          var j :| 0 <= j < n && xs[..n][j] == y;
          assert xs[j] == y;
        }
      }
    }
  }

  /** `Insert` meets the requirements of the loop laws, with `Holds` as holding. */
  lemma InsertLaws()
    ensures Keeps(Insert)
    ensures forall t, x :: Insert(t, x) <= t + {x}
    ensures forall t, x :: Holds(Insert(t, x), x)
    ensures forall t, u, x :: t <= u && Holds(t, x) ==> Holds(u, x)
  {
    forall t, u, x | t <= u && Holds(t, x) ensures Holds(u, x) {
      HoldsGrows(t, u, x);
    }
  }

  /** Adding a citation count equal to one held leaves the set unchanged. */
  lemma InsertCitationEqual(s: set<CitationData>, held: CitationData, x: CitationData)
    requires held in s && held.source.uri == x.source.uri && held.count == x.count && held.date == x.date
    ensures InsertCitation(s, x) == s
  {
    assert CitationEq(held, x);
  }

  /** Paper equality is URI equality. */
  lemma PaperEqualIff(a: Entity, b: Entity)
    requires a.Paper? && b.Paper?
    ensures Equal(a, b) <==> a.uri == b.uri
  {
  }

  /**
   * Two Organizations built from the same label are equal, whatever their
   * sources and whatever fresh blank node each would fall back to.
   */
  lemma SameLabelOrganizationsEqual(src1: SourceData, src2: SourceData, labelText: string, b1: nat, b2: nat)
    ensures Equal(NewOrganization(src1, labelText, b1), NewOrganization(src2, labelText, b2))
    ensures NewOrganization(src1, labelText, b1).uri.Iri? ==>
      NewOrganization(src1, labelText, b1).uri == NewOrganization(src2, labelText, b2).uri
  {
  }

  // ---------------------------------------------------------------------
  // Projection to triples

  function CommentTriples(uri: Term, comments: set<string>): set<Triple>
  {
    set c | c in comments :: (uri, RDFS_COMMENT, Str(c))
  }

  function TextTriples(s: Term, p: Term, xs: set<string>): set<Triple>
  {
    set x | x in xs :: (s, p, Str(x))
  }

  function TermTriples(s: Term, p: Term, xs: set<Term>): set<Triple>
  {
    set x | x in xs :: (s, p, x)
  }

  function LinkTriples(s: Term, p: Term, es: set<Entity>): set<Triple>
  {
    set e | e in es :: (s, p, e.uri)
  }

  function OptionalText(s: Term, p: Term, o: Option<string>): set<Triple>
  {
    if o.Some? then {(s, p, Str(o.value))} else {}
  }

  /** `Literal(x)` of an optional string: rdflib writes None as the text "None". */
  function NoneOr(o: Option<string>): Term
  {
    if o.Some? then Str(o.value) else Str("None")
  }

  /** `Source.to_rdf`. */
  function SourceTriples(src: SourceData): set<Triple>
  {
    CommentTriples(src.uri, src.comments)
    + {(src.uri, PAV_IMPORTED_FROM, Lit(src.importedFrom)),
       (src.uri, PAV_LAST_REFRESHED_ON, Lit(DateTime(src.lastRefreshedOn))),
       (src.uri, PAV_RETRIEVED_ON, Lit(DateTime(src.retrievedOn)))}
  }

  /** `CitationCount.to_rdf`. */
  function CitationTriples(c: CitationData): set<Triple>
  {
    {(c.uri, DCTERMS_SOURCE, c.source.uri), (c.uri, RDF_VALUE, Lit(Integer(c.count)))}
    + OptionalText(c.uri, DCTERMS_DATE, c.date)
    + SourceTriples(c.source)
    + CommentTriples(c.uri, c.comments)
  }

  /** The triples `Thing.to_rdf` adds itself (its recursion into `related` is in `Children`). */
  function ThingOwn(e: Entity): set<Triple>
  {
    CommentTriples(e.uri, e.comments)
    + {(e.uri, RDFS_LABEL, Str(e.labelText)), (e.uri, PAV_RETRIEVED_FROM, e.source.uri)}
    + (if e.retrievedFrom.Some? then {(e.uri, PAV_RETRIEVED_FROM, Lit(e.retrievedFrom.value))} else {})
    + SourceTriples(e.source)
    + RelatedTriples(e.uri, e.related)
  }

  function RelatedTriples(s: Term, related: seq<Entity>): set<Triple>
  {
    set r | r in related :: (s, DCTERMS_RELATION, r.uri)
  }

  /** The triples `Resource.to_rdf` adds itself; `created` goes under pav:retrievedFrom. */
  function ResourceOwn(e: Entity): set<Triple>
    requires IsResource(e)
  {
    OptionalText(e.uri, DCTERMS_ABSTRACT, e.abstractText)
    + OptionalText(e.uri, DCTERMS_LICENSE, e.license)
    + TextTriples(e.uri, DCTERMS_SUBJECT, e.keywords)
    + OptionalText(e.uri, PAV_RETRIEVED_FROM, e.created)
    + OptionalText(e.uri, DCTERMS_MODIFIED, e.modified)
    + OptionalText(e.uri, OWL_VERSION_INFO, e.version)
    + LinkTriples(e.uri, ADMS_IDENTIFIER, e.identifiers)
    + LinkTriples(e.uri, DCTERMS_IS_REFERENCED_BY, e.referencedBy)
  }

  /** The triples `Agent.to_rdf` adds itself. */
  function AgentOwn(e: Entity): set<Triple>
    requires IsAgent(e)
  {
    TermTriples(e.uri, DCTERMS_COVERAGE, e.locations)
  }

  /** `Person.to_rdf`'s ORCID triple: owl:sameAs for a URIRef, roh:ORCID literal otherwise. */
  function OrcidTriples(s: Term, o: Option<Orcid>): set<Triple>
  {
    match o
    case None => {}
    case Some(OrcidIri(i)) => {(s, OWL_SAME_AS, Iri(i))}
    case Some(OrcidText(x)) => {(s, ROH_ORCID, Str(x))}
  }

  /** A Paper's citation links plus each CitationCount's own projection. */
  function CitationLinks(s: Term, citations: set<CitationData>): set<Triple>
  {
    (set c | c in citations :: (s, DCTERMS_BIBLIOGRAPHIC_CITATION, c.uri))
    + (set c, t | c in citations && t in CitationTriples(c) :: t)
  }

  /** The triples the leaf class's `to_rdf` adds itself. */
  function KindOwn(e: Entity): set<Triple>
  {
    match e
    case Identifier(_, _, _, _, _, _) => {(e.uri, RDF_TYPE, DATACITE_IDENTIFIER)}
    case Repository(_, _, _, _, _, _, _, _, _, _, _, _, _, _) => {(e.uri, RDF_TYPE, DCMITYPE_SOFTWARE)}
    case Organization(_, _, _, _, _, _, _, _, _) =>
      {(e.uri, RDF_TYPE, FOAF_ORGANIZATION), (e.uri, RDFS_LABEL, Str(e.labelText))}
      + TextTriples(e.uri, DCTERMS_ALTERNATIVE, e.alternatives)
      + LinkTriples(e.uri, ADMS_IDENTIFIER, e.identifiers)
    case Person(_, _, _, _, _, _, _, _, _, _, _, _, _, _) =>
      {(e.uri, RDF_TYPE, FOAF_PERSON),
       (e.uri, FOAF_FIRST_NAME, NoneOr(e.firstName)),
       (e.uri, FOAF_LAST_NAME, NoneOr(e.lastName))}
      + TextTriples(e.uri, DCTERMS_ALTERNATIVE, e.alternatives)
      + OrcidTriples(e.uri, e.orcid)
      + LinkTriples(e.uri, FOAF_MEMBER, e.affiliations)
      + LinkTriples(e.uri, ADMS_IDENTIFIER, e.identifiers)
      + TermTriples(e.uri, OO_CONTACT, e.contacts)
    case Paper(_, _, _, _, _, _, _, _, _, _, _, _, _, _, _, _, _, _, _, _, _, _, _) =>
      {(e.uri, RDF_TYPE, BIBO_DOCUMENT), (e.uri, DCTERMS_TITLE, NoneOr(e.title))}
      + LinkTriples(e.uri, DCTERMS_CONTRIBUTOR, e.authors)
      + OptionalText(e.uri, DCTERMS_DATE, e.publicationDate)
      + OptionalText(e.uri, PAV_AUTHORED_ON, e.publicationDate)
      + (if e.venue.Some? then {(e.uri, DCTERMS_IS_PART_OF, Str(Text(e.venue.value)))} else {})
      + (if e.doi.Some? then {(e.uri, DCTERMS_IDENTIFIER, e.doi.value), (e.uri, BIBO_DOI, e.doi.value)} else {})
      + TextTriples(e.uri, DCAT_DOWNLOAD_URL, e.downloadUrls)
      + LinkTriples(e.uri, DCTERMS_RELATION, e.relatedWorks)
      + CitationLinks(e.uri, e.citations)
    case Software(_, _, _, _, _, _, _, _, _, _, _, _, _, _, _, _, _, _, _, _, _) =>
      LinkTriples(e.uri, DCTERMS_CREATOR, e.creators)
      + TextTriples(e.uri, DCTERMS_LANGUAGE, e.languages)
      + TextTriples(e.uri, DCTERMS_SOURCE, e.platforms)
      + TextTriples(e.uri, DOAP_REPOSITORY, e.codeRepositories)
      + TextTriples(e.uri, DCTERMS_AVAILABLE, e.availableAt)
      + OptionalText(e.uri, DCTERMS_ISSUED, e.publication)
      + OptionalText(e.uri, DCTERMS_RIGHTS, e.rights)
  }

  /** Everything `to_rdf` adds for `e` before recursing into sub-entities. */
  function Own(e: Entity): set<Triple>
  {
    ThingOwn(e) + ClassOwn(e) + KindOwn(e)
  }

  /** What the intermediate class (Resource or Agent) adds. */
  function ClassOwn(e: Entity): set<Triple>
  {
    if IsResource(e) then ResourceOwn(e)
    else if IsAgent(e) then AgentOwn(e)
    else {}
  }

  /**
   * The sub-entities whose `to_rdf` is called: `related`, `referenced_by`,
   * an Organization's identifiers, a Person's affiliations and identifiers,
   * a Paper's authors and related works, a Software's creators. Resource
   * identifiers are only linked, not projected.
   */
  function Children(e: Entity): (r: set<Entity>)
    ensures forall c :: c in r ==> (e decreases to c)
  {
    (set c | c in e.related)
    + (if IsResource(e) then e.referencedBy else {})
    + (match e
       case Organization(_, _, _, _, _, _, _, _, _) => e.identifiers
       case Person(_, _, _, _, _, _, _, _, _, _, _, _, _, _) => e.affiliations + e.identifiers
       case Paper(_, _, _, _, _, _, _, _, _, _, _, _, _, _, _, _, _, _, _, _, _, _, _) => e.authors + e.relatedWorks
       case Software(_, _, _, _, _, _, _, _, _, _, _, _, _, _, _, _, _, _, _, _, _) => e.creators
       case _ => {})
  }

  /** The triples `e.to_rdf(graph)` adds to `graph`. */
  function Triples(e: Entity): set<Triple>
    decreases e
  {
    Own(e) + (set c, t | c in Children(e) && t in Triples(c) :: t)
  }

  /** Everything the projections of the entities of `cs` add. */
  function Below(cs: set<Entity>): set<Triple>
  {
    set c, t | c in cs && t in Triples(c) :: t
  }

  lemma TriplesSplit(e: Entity)
    ensures Triples(e) == Own(e) + Below(Children(e))
  {
  }

  lemma BelowAdd(cs: set<Entity>, c: Entity)
    ensures Below(cs + {c}) == Below(cs) + Triples(c)
  {
    forall t | t in Below(cs + {c}) ensures t in Below(cs) + Triples(c) {
      var x :| x in cs + {c} && t in Triples(x);
    }
    forall t | t in Below(cs) ensures t in Below(cs + {c}) {
      var x :| x in cs && t in Triples(x);
    }
  }

  // ---------------------------------------------------------------------
  // What a projection holds

  /**
   * Every Thing's projection links it to its source and holds the source's
   * own triples; the retrieved-from literal appears when that field is set.
   */
  lemma ThingProjection(e: Entity)
    ensures (e.uri, PAV_RETRIEVED_FROM, e.source.uri) in Triples(e)
    ensures SourceTriples(e.source) <= Triples(e)
    ensures e.retrievedFrom.Some? ==> (e.uri, PAV_RETRIEVED_FROM, Lit(e.retrievedFrom.value)) in Triples(e)
  {
  }

  /** Setting `retrieved_from` adds exactly its triple; unset, it adds nothing. */
  lemma RetrievedFromOnlyWhenSet(e: Entity, l: Literal)
    ensures Triples(e.(retrievedFrom := Some(l)))
      == Triples(e.(retrievedFrom := None)) + {(e.uri, PAV_RETRIEVED_FROM, Lit(l))}
  {
    var a, b := e.(retrievedFrom := Some(l)), e.(retrievedFrom := None);
    var d := {(e.uri, PAV_RETRIEVED_FROM, Lit(l))};
    RetrievedFromAside(a, b);
    ThingRetrievedDelta(a, b, l, d);
    ThingDelta(a, b, d);
  }

  /** Entities that differ only in `retrieved_from` have the same class, kind and sub-entity triples. */
  lemma RetrievedFromAside(a: Entity, b: Entity)
    requires a == b.(retrievedFrom := a.retrievedFrom)
    ensures a.uri == b.uri && a.comments == b.comments && a.labelText == b.labelText && a.source == b.source && a.related == b.related
    ensures ClassOwn(a) == ClassOwn(b) && KindOwn(a) == KindOwn(b) && Children(a) == Children(b)
  {
    RetrievedFromAsideOwn(a, b);
    RetrievedFromAsideChildren(a, b);
  }

  /** The class and kind triples do not depend on `retrieved_from`. */
  lemma RetrievedFromAsideOwn(a: Entity, b: Entity)
    requires a == b.(retrievedFrom := a.retrievedFrom)
    ensures ClassOwn(a) == ClassOwn(b) && KindOwn(a) == KindOwn(b)
  {
  }

  /** Neither do the sub-entities. */
  lemma RetrievedFromAsideChildren(a: Entity, b: Entity)
    requires a == b.(retrievedFrom := a.retrievedFrom)
    ensures Children(a) == Children(b)
  {
  }

  /** The Thing triples of two entities alike but for a set and an unset `retrieved_from` differ by its triple. */
  lemma ThingRetrievedDelta(a: Entity, b: Entity, l: Literal, d: set<Triple>)
    requires a.uri == b.uri && a.comments == b.comments && a.labelText == b.labelText && a.source == b.source && a.related == b.related
    requires a.retrievedFrom == Some(l) && b.retrievedFrom == None && d == {(a.uri, PAV_RETRIEVED_FROM, Lit(l))}
    ensures ThingOwn(a) == ThingOwn(b) + d
  {
  }

  /** A Resource's abstract adds exactly one triple when set and none when unset. */
  lemma ResourceAbstractOnlyWhenSet(e: Entity, x: string)
    requires IsResource(e)
    ensures Triples(e.(abstractText := Some(x))) == Triples(e.(abstractText := None)) + {(e.uri, DCTERMS_ABSTRACT, Str(x))}
  {
    ClassDelta(e.(abstractText := Some(x)), e.(abstractText := None), {(e.uri, DCTERMS_ABSTRACT, Str(x))});
  }

  /** A Resource's license adds exactly one triple when set and none when unset. */
  lemma ResourceLicenseOnlyWhenSet(e: Entity, x: string)
    requires IsResource(e)
    ensures Triples(e.(license := Some(x))) == Triples(e.(license := None)) + {(e.uri, DCTERMS_LICENSE, Str(x))}
  {
    ClassDelta(e.(license := Some(x)), e.(license := None), {(e.uri, DCTERMS_LICENSE, Str(x))});
  }

  /** A Resource's creation date, written under pav:retrievedFrom, adds exactly one triple when set and none when unset. */
  lemma ResourceCreatedOnlyWhenSet(e: Entity, x: string)
    requires IsResource(e)
    ensures Triples(e.(created := Some(x))) == Triples(e.(created := None)) + {(e.uri, PAV_RETRIEVED_FROM, Str(x))}
  {
    ClassDelta(e.(created := Some(x)), e.(created := None), {(e.uri, PAV_RETRIEVED_FROM, Str(x))});
  }

  /** A Resource's modification date adds exactly one triple when set and none when unset. */
  lemma ResourceModifiedOnlyWhenSet(e: Entity, x: string)
    requires IsResource(e)
    ensures Triples(e.(modified := Some(x))) == Triples(e.(modified := None)) + {(e.uri, DCTERMS_MODIFIED, Str(x))}
  {
    ClassDelta(e.(modified := Some(x)), e.(modified := None), {(e.uri, DCTERMS_MODIFIED, Str(x))});
  }

  /** A Resource's version adds exactly one triple when set and none when unset. */
  lemma ResourceVersionOnlyWhenSet(e: Entity, x: string)
    requires IsResource(e)
    ensures Triples(e.(version := Some(x))) == Triples(e.(version := None)) + {(e.uri, OWL_VERSION_INFO, Str(x))}
  {
    ClassDelta(e.(version := Some(x)), e.(version := None), {(e.uri, OWL_VERSION_INFO, Str(x))});
  }

  /** `x + a + y` and `x + b + y` differ by `d` when `a` and `b` do; `pos` says which operand varies. */
  lemma UnionDelta(a: set<Triple>, b: set<Triple>, x: set<Triple>, y: set<Triple>, d: set<Triple>, pos: nat)
    requires a == b + d
    ensures pos == 0 ==> a + x + y == b + x + y + d
    ensures pos == 1 ==> x + a + y == x + b + y + d
    ensures pos == 2 ==> x + y + a == x + y + b + d
  {
  }

  /** Entities that differ only in what the intermediate class adds differ by exactly that. */
  lemma ClassDelta(a: Entity, b: Entity, d: set<Triple>)
    requires ThingOwn(a) == ThingOwn(b) && KindOwn(a) == KindOwn(b) && Children(a) == Children(b)
    requires ClassOwn(a) == ClassOwn(b) + d
    ensures Triples(a) == Triples(b) + d
  {
    UnionDelta(ClassOwn(a), ClassOwn(b), ThingOwn(a), KindOwn(a), d, 1);
    OwnDelta(a, b, d);
  }

  /** Entities that differ only in what Thing adds differ by exactly that. */
  lemma ThingDelta(a: Entity, b: Entity, d: set<Triple>)
    requires ClassOwn(a) == ClassOwn(b) && KindOwn(a) == KindOwn(b) && Children(a) == Children(b)
    requires ThingOwn(a) == ThingOwn(b) + d
    ensures Triples(a) == Triples(b) + d
  {
    UnionDelta(ThingOwn(a), ThingOwn(b), ClassOwn(a), KindOwn(a), d, 0);
    OwnDelta(a, b, d);
  }

  /** Entities with the same sub-entities whose own triples differ by `d` differ by `d` overall. */
  lemma OwnDelta(a: Entity, b: Entity, d: set<Triple>)
    requires Children(a) == Children(b) && Own(a) == Own(b) + d
    ensures Triples(a) == Triples(b) + d
  {
  }

  /**
   * A Person always gets its type and both name triples, "None" standing
   * for an unset name.
   */
  lemma PersonProjection(p: Entity)
    requires p.Person?
    ensures (p.uri, RDF_TYPE, FOAF_PERSON) in Triples(p)
    ensures (p.uri, FOAF_FIRST_NAME, NoneOr(p.firstName)) in Triples(p)
    ensures (p.uri, FOAF_LAST_NAME, NoneOr(p.lastName)) in Triples(p)
  {
  }

  /**
   * An ORCID adds exactly one triple: owl:sameAs when it is a URIRef, a
   * roh:ORCID literal otherwise.
   */
  lemma PersonOrcid(p: Entity, x: string)
    requires p.Person?
    ensures Triples(p.(orcid := Some(OrcidIri(x)))) == Triples(p.(orcid := None)) + {(p.uri, OWL_SAME_AS, Iri(x))}
    ensures Triples(p.(orcid := Some(OrcidText(x)))) == Triples(p.(orcid := None)) + {(p.uri, ROH_ORCID, Str(x))}
  {
    KindDelta(p.(orcid := Some(OrcidIri(x))), p.(orcid := None), {(p.uri, OWL_SAME_AS, Iri(x))});
    KindDelta(p.(orcid := Some(OrcidText(x))), p.(orcid := None), {(p.uri, ROH_ORCID, Str(x))});
  }

  /** Entities that differ only in what the leaf `to_rdf` adds differ by exactly that. */
  lemma KindDelta(a: Entity, b: Entity, d: set<Triple>)
    requires ThingOwn(a) == ThingOwn(b) && ClassOwn(a) == ClassOwn(b) && Children(a) == Children(b)
    requires KindOwn(a) == KindOwn(b) + d
    ensures Triples(a) == Triples(b) + d
  {
    UnionDelta(KindOwn(a), KindOwn(b), ThingOwn(a), ClassOwn(a), d, 2);
    OwnDelta(a, b, d);
  }

  /** A projected sub-entity's triples are part of the parent's projection. */
  lemma ChildTriples(e: Entity, c: Entity)
    requires c in Children(e)
    ensures Triples(c) <= Triples(e)
  {
  }

  /** A Paper's `repositories` never reach the graph. */
  lemma RepositoriesNotProjected(p: Entity, rs: set<Term>)
    requires p.Paper?
    ensures Triples(p.(repositories := rs)) == Triples(p)
  {
  }
}
