/**
 * RDF terms, the vocabulary the harvesters write, and an rdflib `Graph`
 * reduced to what the harvesters use of it: a set of triples that `add`
 * grows, `len`, and `close`.
 */
module Rdf {
  import opened Numerals

  /**
   * A literal: `Literal(s)` of a string, `Literal(n)` of an int, and an ISO
   * timestamp typed xsd:dateTime.
   */
  datatype Literal = Plain(lexical: string) | Integer(value: int) | DateTime(iso: string)

  /** A URIRef, a BNode or a Literal. */
  datatype Term = Iri(iri: string) | Blank(id: nat) | Lit(literal: Literal)

  type Triple = (Term, Term, Term)

  /** The identifier rdflib prints for a blank node. */
  function BlankName(id: nat): (s: string)
    ensures |s| > 1 && s[0] == 'N'
    ensures forall i :: 1 <= i < |s| ==> IsDigit(s[i])
  {
    "N" + NatText(id)
  }

  /** `str(t)`: the text of a term. */
  function Text(t: Term): string
  {
    match t
    case Iri(iri) => iri
    case Blank(id) => BlankName(id)
    case Lit(Plain(s)) => s
    case Lit(Integer(n)) => IntText(n)
    case Lit(DateTime(s)) => s
  }

  /** `Literal(s)` of a string. */
  function Str(s: string): Term { Lit(Plain(s)) }

  // Namespaces
  const RDF_NS := "http://www.w3.org/1999/02/22-rdf-syntax-ns#"
  const RDFS_NS := "http://www.w3.org/2000/01/rdf-schema#"
  const OWL_NS := "http://www.w3.org/2002/07/owl#"
  const DCTERMS_NS := "http://purl.org/dc/terms/"
  const DCMITYPE_NS := "http://purl.org/dc/dcmitype/"
  const DCAT_NS := "http://www.w3.org/ns/dcat#"
  const FOAF_NS := "http://xmlns.com/foaf/0.1/"
  const DOAP_NS := "http://usefulinc.com/ns/doap#"
  const PAV_NS := "http://purl.org/pav/"
  const ADMS_NS := "http://www.w3.org/ns/adms#"
  const BIBO_NS := "http://purl.org/ontology/bibo/"
  const DATACITE_NS := "http://purl.org/spar/datacite/"
  const OO_NS := "http://purl.org/openorg/"
  const ROH_NS := "http://w3id.org/roh#"
  const LOCAL_NS := "http://ns.inria.fr/kg/works/"

  // Classes
  const DATACITE_IDENTIFIER := Iri(DATACITE_NS + "Identifier")
  const DCMITYPE_SOFTWARE := Iri(DCMITYPE_NS + "Software")
  const FOAF_ORGANIZATION := Iri(FOAF_NS + "Organization")
  const FOAF_PERSON := Iri(FOAF_NS + "Person")
  const BIBO_DOCUMENT := Iri(BIBO_NS + "Document")
  const LOCAL_GITHUB_USER := Iri(LOCAL_NS + "GitHubUser")

  // Properties
  const RDF_TYPE := Iri(RDF_NS + "type")
  const RDF_VALUE := Iri(RDF_NS + "value")
  const RDFS_COMMENT := Iri(RDFS_NS + "comment")
  const RDFS_LABEL := Iri(RDFS_NS + "label")
  const OWL_SAME_AS := Iri(OWL_NS + "sameAs")
  const OWL_VERSION_INFO := Iri(OWL_NS + "versionInfo")
  const PAV_IMPORTED_FROM := Iri(PAV_NS + "importedFrom")
  const PAV_LAST_REFRESHED_ON := Iri(PAV_NS + "lastRefreshedOn")
  const PAV_RETRIEVED_ON := Iri(PAV_NS + "retrievedOn")
  const PAV_RETRIEVED_FROM := Iri(PAV_NS + "retrievedFrom")
  const PAV_AUTHORED_ON := Iri(PAV_NS + "authoredOn")
  const DCTERMS_ABSTRACT := Iri(DCTERMS_NS + "abstract")
  const DCTERMS_LICENSE := Iri(DCTERMS_NS + "license")
  const DCTERMS_SUBJECT := Iri(DCTERMS_NS + "subject")
  const DCTERMS_MODIFIED := Iri(DCTERMS_NS + "modified")
  const DCTERMS_RELATION := Iri(DCTERMS_NS + "relation")
  const DCTERMS_IS_REFERENCED_BY := Iri(DCTERMS_NS + "isReferencedBy")
  const DCTERMS_COVERAGE := Iri(DCTERMS_NS + "coverage")
  const DCTERMS_ALTERNATIVE := Iri(DCTERMS_NS + "alternative")
  const DCTERMS_SOURCE := Iri(DCTERMS_NS + "source")
  const DCTERMS_DATE := Iri(DCTERMS_NS + "date")
  const DCTERMS_TITLE := Iri(DCTERMS_NS + "title")
  const DCTERMS_CONTRIBUTOR := Iri(DCTERMS_NS + "contributor")
  const DCTERMS_IS_PART_OF := Iri(DCTERMS_NS + "isPartOf")
  const DCTERMS_IDENTIFIER := Iri(DCTERMS_NS + "identifier")
  const DCTERMS_BIBLIOGRAPHIC_CITATION := Iri(DCTERMS_NS + "bibliographicCitation")
  const DCTERMS_CREATOR := Iri(DCTERMS_NS + "creator")
  const DCTERMS_LANGUAGE := Iri(DCTERMS_NS + "language")
  const DCTERMS_AVAILABLE := Iri(DCTERMS_NS + "available")
  const DCTERMS_ISSUED := Iri(DCTERMS_NS + "issued")
  const DCTERMS_RIGHTS := Iri(DCTERMS_NS + "rights")
  const DCAT_DOWNLOAD_URL := Iri(DCAT_NS + "downloadURL")
  const DOAP_REPOSITORY := Iri(DOAP_NS + "repository")
  const BIBO_DOI := Iri(BIBO_NS + "doi")
  const ADMS_IDENTIFIER := Iri(ADMS_NS + "identifier")
  const FOAF_FIRST_NAME := Iri(FOAF_NS + "firstName")
  const FOAF_LAST_NAME := Iri(FOAF_NS + "lastName")
  const FOAF_MEMBER := Iri(FOAF_NS + "member")
  const FOAF_NAME := Iri(FOAF_NS + "name")
  const FOAF_HOMEPAGE := Iri(FOAF_NS + "homepage")
  const FOAF_MBOX_SHA1SUM := Iri(FOAF_NS + "mbox_sha1sum")
  const OO_CONTACT := Iri(OO_NS + "contact")
  const ROH_ORCID := Iri(ROH_NS + "ORCID")

  /** What projecting each of `xs` in turn through `project` adds to a graph. */
  function Projected<T>(xs: seq<T>, project: T -> set<Triple>): set<Triple>
    decreases |xs|
  {
    if xs == [] then {} else Projected(xs[..|xs| - 1], project) + project(xs[|xs| - 1])
  }

  /** Projecting nothing adds nothing. */
  lemma ProjectedNone<T>(xs: seq<T>, project: T -> set<Triple>, base: set<Triple>)
    requires xs == []
    ensures base + Projected(xs, project) == base
  {
    assert Projected(xs, project) == {};
  }

  /** Projecting one element adds its projection. */
  lemma ProjectedOne<T>(x: T, project: T -> set<Triple>)
    ensures Projected([x], project) == project(x)
  {
    assert [x][..0] == [];
  }

  /** Projecting two runs one after the other adds what each adds. */
  lemma {:induction false} ProjectedAppend<T>(xs: seq<T>, ys: seq<T>, project: T -> set<Triple>)
    ensures Projected(xs + ys, project) == Projected(xs, project) + Projected(ys, project)
    decreases |ys|
  {
    if ys == [] {
      assert xs + ys == xs;
    } else {
      var n := |ys| - 1;
      ProjectedAppend(xs, ys[..n], project);
      assert (xs + ys)[..|xs| + n] == xs + ys[..n];
      assert (xs + ys)[|xs| + n] == ys[n];
    }
  }

  /**
   * A graph holding `base` and the projection of `xs`, to which the
   * projection of `x` is added, holds `base` and the projection of `all`
   * when `all` is `xs` followed by `x`.
   */
  lemma ProjectedNext<T>(all: seq<T>, xs: seq<T>, x: T, project: T -> set<Triple>,
                         base: set<Triple>, before: set<Triple>, after: set<Triple>)
    requires all == xs + [x]
    requires before == base + Projected(xs, project) && after == before + Projected([x], project)
    ensures after == base + Projected(all, project)
  {
    ProjectedAppend(xs, [x], project);
  }

  /** Every element projected contributes all its triples. */
  lemma {:induction false} ProjectedHas<T>(xs: seq<T>, i: nat, project: T -> set<Triple>)
    requires i < |xs|
    ensures project(xs[i]) <= Projected(xs, project)
    decreases |xs|
  {
    var n := |xs| - 1;
    if i < n {
      ProjectedHas(xs[..n], i, project);
      assert xs[..n][i] == xs[i];
    }
  }

  /** A triple of an element projected is a triple of the projection. */
  lemma ProjectedMember<T>(xs: seq<T>, x: T, project: T -> set<Triple>, t: Triple)
    requires x in xs && t in project(x)
    ensures t in Projected(xs, project)
  {
    var i :| 0 <= i < |xs| && xs[i] == x;
    ProjectedHas(xs, i, project);
  }

  /** Every triple of the projection comes from some element. */
  lemma {:induction false} ProjectedFrom<T>(xs: seq<T>, project: T -> set<Triple>, t: Triple)
    requires t in Projected(xs, project)
    ensures exists i :: 0 <= i < |xs| && t in project(xs[i])
    decreases |xs|
  {
    var n := |xs| - 1;
    if t !in project(xs[n]) {
      ProjectedFrom(xs[..n], project, t);
      var i :| 0 <= i < n && t in project(xs[..n][i]);
      assert xs[..n][i] == xs[i];
    }
  }

  /** Adding `t` to a set that is `base + part` gives `base + (part + t)`. */
  lemma Grow<T>(base: set<T>, part: set<T>, t: set<T>, before: set<T>, after: set<T>, bigger: set<T>)
    requires before == base + part && after == before + t && bigger == part + t
    ensures after == base + bigger
  {
  }

  /** Moving one element from `todo` to `done` keeps them a partition of `all`. */
  lemma MoveOne<T>(all: set<T>, done: set<T>, todo: set<T>, x: T)
    requires done + todo == all && done !! todo && x in todo
    ensures (done + {x}) + (todo - {x}) == all && (done + {x}) !! (todo - {x})
  {
  }

  /** An rdflib Graph: its triples, and whether `close` has been called. */
  class Graph {
    var triples: set<Triple>
    var closed: bool

    constructor ()
      ensures triples == {} && !closed
    {
      triples := {};
      closed := false;
    }

    /** `graph.add(t)`. */
    method Add(t: Triple)
      modifies this`triples
      ensures triples == old(triples) + {t}
    {
      triples := triples + {t};
    }

    /** `graph.add` of every triple of `ts`, in any order. */
    method AddAll(ts: set<Triple>)
      modifies this`triples
      ensures triples == old(triples) + ts
    {
      var todo := ts;
      while todo != {}
        invariant todo <= ts
        invariant triples == old(triples) + (ts - todo)
        decreases todo
      {
        var t :| t in todo;
        Add(t);
        todo := todo - {t};
      }
    }

    /** `len(graph)`. */
    function Size(): nat
      reads this
    {
      |triples|
    }

    /** `graph.close()`: the in-memory store keeps its triples. */
    method Close()
      modifies this`closed
      ensures closed
    {
      closed := true;
    }
  }

  /**
   * rdflib's `BNode()`: every call yields a blank node no earlier call
   * yielded. Identifiers are drawn from a counter.
   */
  class BlankNodes {
    var next: nat

    constructor (first: nat)
      ensures next == first
    {
      next := first;
    }

    method Fresh() returns (id: nat)
      modifies this
      ensures id == old(next) && next == old(next) + 1
    {
      id := next;
      next := next + 1;
    }
  }

  /** `files` with `ts` stored under `name` when `ts` is not empty. */
  function WriteIf(files: map<string, set<Triple>>, name: string, ts: set<Triple>): (r: map<string, set<Triple>>)
    ensures ts != {} ==> name in r && r[name] == ts
    ensures forall n :: n in files && (n != name || ts == {}) ==> n in r && r[n] == files[n]
    ensures r.Keys <= files.Keys + {name}
    ensures ts == {} ==> r == files
  {
    if ts != {} then files[name := ts] else files
  }

  /** The files the harvesters serialize graphs into, by file name. */
  class Disk {
    var files: map<string, set<Triple>>

    constructor ()
      ensures files == map[]
    {
      files := map[];
    }

    /**
     * `if len(graph) > 0: graph.serialize(destination=name)` followed by
     * `graph.close()`: an empty graph leaves the disk as it was.
     */
    method WriteIfNonEmpty(g: Graph, name: string)
      modifies this`files, g`closed
      ensures g.closed
      ensures g.triples != {} ==> files == old(files)[name := g.triples]
      ensures g.triples == {} ==> files == old(files)
    {
      if g.Size() > 0 {
        files := files[name := g.triples];
      }
      g.Close();
    }
  }
}
