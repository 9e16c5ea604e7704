/**
 * The entity classes of kg/knowledge.py as objects whose setters and
 * adders update fields in place and whose `to_rdf` grows a shared Graph.
 *
 * Python's inheritance chain is kept as delegation: every leaf object
 * holds the `Thing` part it inherits (uri, comments, label, source,
 * retrieved_from, related) and, for Resources and Agents, the part those
 * classes add. A setter inherited from Thing is called on `x.thing`, one
 * inherited from Resource on `x.resource`, as `x.set_label(...)` and
 * `x.set_abstract(...)` reach the inherited method in Python.
 *
 * `Build()` reads an object's current state as an `Entities.Entity` value,
 * and `ToRdf` adds exactly `Entities.Triples(Build())` to the graph.
 * Sub-entities are held as the values they had when they were added.
 */
module Knowledge {
  import opened Wrappers
  import opened Rdf
  import opened Utilities
  import E = Entities

  /** `Source`: the service an entity was harvested from. */
  class Source {
    var uri: Term
    var comments: set<string>
    var importedFrom: Literal
    var lastRefreshedOn: string
    var retrievedOn: string

    /** `Source(source_uri)`; the two `datetime.now()` reads are parameters. */
    constructor (sourceUri: string, refreshed: string, retrieved: string)
      ensures Build() == E.NewSource(sourceUri, refreshed, retrieved)
    {
      uri := Iri(sourceUri);
      comments := {};
      importedFrom := Plain(sourceUri);
      lastRefreshedOn := refreshed;
      retrievedOn := retrieved;
    }

    function Build(): E.SourceData
      reads this
    {
      E.SourceData(uri, comments, importedFrom, lastRefreshedOn, retrievedOn)
    }

    method AddComment(comment: string)
      modifies this`comments
      ensures comments == old(comments) + {comment}
    {
      comments := comments + {comment};
    }

    method SetImportedFrom(importedFrom: Literal)
      modifies this`importedFrom
      ensures this.importedFrom == importedFrom
    {
      this.importedFrom := importedFrom;
    }

    method SetLastRefreshedOn(lastRefreshedOn: string)
      modifies this`lastRefreshedOn
      ensures this.lastRefreshedOn == lastRefreshedOn
    {
      this.lastRefreshedOn := lastRefreshedOn;
    }

    method SetRetrievedOn(retrievedOn: string)
      modifies this`retrievedOn
      ensures this.retrievedOn == retrievedOn
    {
      this.retrievedOn := retrievedOn;
    }

    /**
     * `Source.to_rdf`: the comments, the three provenance triples, and the
     * comments a second time.
     */
    method ToRdf(g: Graph)
      modifies g`triples
      ensures g.triples == old(g.triples) + E.SourceTriples(Build())
    {
      AddComments(uri, comments, g);
      g.Add((uri, PAV_IMPORTED_FROM, Lit(importedFrom)));
      g.Add((uri, PAV_LAST_REFRESHED_ON, Lit(DateTime(lastRefreshedOn))));
      g.Add((uri, PAV_RETRIEVED_ON, Lit(DateTime(retrievedOn))));
      AddComments(uri, comments, g);
    }
  }

  /** `RDFResource.to_rdf`: one rdfs:comment triple per comment. */
  method AddComments(uri: Term, comments: set<string>, g: Graph)
    modifies g`triples
    ensures g.triples == old(g.triples) + E.CommentTriples(uri, comments)
  {
    var todo := comments;
    while todo != {}
      invariant todo <= comments
      invariant g.triples == old(g.triples) + E.CommentTriples(uri, comments - todo)
      decreases todo
    {
      var c :| c in todo;
      g.Add((uri, RDFS_COMMENT, Str(c)));
      todo := todo - {c};
    }
  }

  /**
   * `e.to_rdf(graph)`: the triples `e`'s own class chain adds, then the
   * projection of every sub-entity it recurses into.
   */
  method Project(e: E.Entity, g: Graph)
    modifies g`triples
    ensures g.triples == old(g.triples) + E.Triples(e)
    decreases e, 1
  {
    g.AddAll(E.Own(e));
    ProjectEach(E.Children(e), g, e);
    E.TriplesSplit(e);
  }

  /** The loops of `to_rdf` that call `to_rdf` on each sub-entity of `parent`. */
  method ProjectEach(cs: set<E.Entity>, g: Graph, ghost parent: E.Entity)
    requires forall c :: c in cs ==> (parent decreases to c)
    modifies g`triples
    ensures g.triples == old(g.triples) + E.Below(cs)
    decreases parent, 0
  {
    var todo := cs;
    ghost var done: set<E.Entity> := {};
    while todo != {}
      invariant done + todo == cs && done !! todo
      invariant g.triples == old(g.triples) + E.Below(done)
      decreases todo
    {
      var c :| c in todo;
      ghost var before := g.triples;
      Project(c, g);
      E.BelowAdd(done, c);
      Grow(old(g.triples), E.Below(done), E.Triples(c), before, g.triples, E.Below(done + {c}));
      MoveOne(cs, done, todo, c);
      todo, done := todo - {c}, done + {c};
    }
  }

  /** The part every entity inherits from `Thing`. */
  class Thing {
    var uri: Term
    var comments: set<string>
    var labelText: string
    var source: Source
    var retrievedFrom: Option<Literal>
    var related: seq<E.Entity>

    /** `Thing(source, uri)`: the label starts as `str(uri)`. */
    constructor (source: Source, uri: Term)
      ensures this.uri == uri && comments == {} && labelText == Text(uri)
      ensures this.source == source && retrievedFrom == None && related == []
    {
      this.uri := uri;
      comments := {};
      labelText := Text(uri);
      this.source := source;
      retrievedFrom := None;
      related := [];
    }

    method SetUri(uri: Term)
      modifies this`uri
      ensures this.uri == uri
    {
      this.uri := uri;
    }

    method SetLabel(labelText: string)
      modifies this`labelText
      ensures this.labelText == labelText
    {
      this.labelText := labelText;
    }

    method SetSource(source: Source)
      modifies this`source
      ensures this.source == source
    {
      this.source := source;
    }

    method SetRetrievedFrom(retrievedFrom: Literal)
      modifies this`retrievedFrom
      ensures this.retrievedFrom == Some(retrievedFrom)
    {
      this.retrievedFrom := Some(retrievedFrom);
    }

    /** `add_related` appends to a list: duplicates are kept. */
    method AddRelated(r: E.Entity)
      modifies this`related
      ensures related == old(related) + [r]
    {
      related := related + [r];
    }

    method AddComment(comment: string)
      modifies this`comments
      ensures comments == old(comments) + {comment}
    {
      comments := comments + {comment};
    }
  }

  /** The fields `Resource` adds to `Thing`. */
  class Resource {
    var abstractText: Option<string>
    var license: Option<string>
    var keywords: set<string>
    var created: Option<string>
    var modified: Option<string>
    var version: Option<string>
    var referencedBy: set<E.Entity>
    var identifiers: set<E.Entity>

    constructor ()
      ensures abstractText == None && license == None && keywords == {}
      ensures created == None && modified == None && version == None
      ensures referencedBy == {} && identifiers == {}
    {
      abstractText, license, keywords := None, None, {};
      created, modified, version := None, None, None;
      referencedBy, identifiers := {}, {};
    }

    method SetAbstract(abstractText: string)
      modifies this`abstractText
      ensures this.abstractText == Some(abstractText)
    {
      this.abstractText := Some(abstractText);
    }

    method SetLicense(license: string)
      modifies this`license
      ensures this.license == Some(license)
    {
      this.license := Some(license);
    }

    /** `add_keyword`: a keyword already present leaves the set as it was. */
    method AddKeyword(keyword: string)
      modifies this`keywords
      ensures keywords == old(keywords) + {keyword}
      ensures keyword in old(keywords) ==> keywords == old(keywords)
    {
      keywords := keywords + {keyword};
    }

    method SetCreated(created: string)
      modifies this`created
      ensures this.created == Some(created)
    {
      this.created := Some(created);
    }

    method SetModified(modified: string)
      modifies this`modified
      ensures this.modified == Some(modified)
    {
      this.modified := Some(modified);
    }

    method SetVersion(version: string)
      modifies this`version
      ensures this.version == Some(version)
    {
      this.version := Some(version);
    }

    method AddReferencedBy(r: E.Entity)
      modifies this`referencedBy
      ensures referencedBy == E.Insert(old(referencedBy), r)
    {
      referencedBy := E.Insert(referencedBy, r);
    }

    /** `add_identifier`: an identifier equal to one held leaves the set as it was. */
    method AddIdentifier(identifier: E.Entity)
      modifies this`identifiers
      ensures identifiers == E.Insert(old(identifiers), identifier)
      ensures E.Holds(old(identifiers), identifier) ==> identifiers == old(identifiers)
    {
      identifiers := E.Insert(identifiers, identifier);
    }
  }

  /** The field `Agent` adds to `Thing`. */
  class Agent {
    var locations: set<Term>

    constructor ()
      ensures locations == {}
    {
      locations := {};
    }

    method AddLocation(location: Term)
      modifies this`locations
      ensures locations == old(locations) + {location}
    {
      locations := locations + {location};
    }
  }

  /** `UniqueIdentifier`. */
  class UniqueIdentifier {
    const thing: Thing

    constructor (source: Source, uri: Term)
      ensures fresh(thing)
      ensures Build() == E.NewIdentifier(source.Build(), uri)
    {
      thing := new Thing(source, uri);
    }

    function Build(): E.Entity
      reads thing, thing.source
    {
      E.Identifier(thing.uri, thing.comments, thing.labelText, thing.source.Build(),
                   thing.retrievedFrom, thing.related)
    }

    method ToRdf(g: Graph)
      modifies g`triples
      ensures g.triples == old(g.triples) + E.Triples(Build())
    {
      Project(Build(), g);
    }
  }

  /** `Repository`. */
  class Repository {
    const thing: Thing
    const resource: Resource

    constructor (source: Source, uri: Term)
      ensures fresh(thing) && fresh(resource)
      ensures Build() == E.NewRepository(source.Build(), uri)
    {
      thing := new Thing(source, uri);
      resource := new Resource();
    }

    function Build(): E.Entity
      reads thing, thing.source, resource
    {
      E.Repository(thing.uri, thing.comments, thing.labelText, thing.source.Build(),
                   thing.retrievedFrom, thing.related,
                   resource.abstractText, resource.license, resource.keywords,
                   resource.created, resource.modified, resource.version,
                   resource.referencedBy, resource.identifiers)
    }

    method ToRdf(g: Graph)
      modifies g`triples
      ensures g.triples == old(g.triples) + E.Triples(Build())
    {
      Project(Build(), g);
    }
  }

  /** `CitationCount`: a blank node carrying a count. */
  class CitationCount {
    var uri: Term
    var comments: set<string>
    var count: int
    var source: Source
    var date: Option<string>

    /** `CitationCount(count, source)` on the fresh blank node `Blank(blank)`. */
    constructor (count: int, source: Source, blank: nat)
      ensures Build() == E.NewCitation(count, source.Build(), blank)
    {
      uri := Blank(blank);
      comments := {};
      this.count := count;
      this.source := source;
      date := None;
    }

    function Build(): E.CitationData
      reads this, source
    {
      E.CitationData(uri, comments, count, source.Build(), date)
    }

    method SetDateOfCitation(date: string)
      modifies this`date
      ensures this.date == Some(date)
    {
      this.date := Some(date);
    }

    method ToRdf(g: Graph)
      modifies g`triples
      ensures g.triples == old(g.triples) + E.CitationTriples(Build())
    {
      g.Add((uri, DCTERMS_SOURCE, source.uri));
      g.Add((uri, RDF_VALUE, Lit(Integer(count))));
      if date.Some? {
        g.Add((uri, DCTERMS_DATE, Str(date.value)));
      }
      source.ToRdf(g);
      AddComments(uri, comments, g);
    }
  }

  /** `Paper`. */
  class Paper {
    const thing: Thing
    const resource: Resource
    var title: Option<string>
    var authors: set<E.Entity>
    var publicationDate: Option<string>
    var venue: Option<Term>
    var doi: Option<Term>
    var relatedWorks: set<E.Entity>
    var citations: set<E.CitationData>
    var repositories: set<Term>
    var downloadUrls: set<string>

    constructor (source: Source, uri: Term)
      ensures fresh(thing) && fresh(resource)
      ensures Build() == E.NewPaper(source.Build(), uri)
    {
      thing := new Thing(source, uri);
      resource := new Resource();
      title, authors, publicationDate := None, {}, None;
      venue, doi, relatedWorks := None, None, {};
      citations, repositories, downloadUrls := {}, {}, {};
    }

    function Build(): E.Entity
      reads this, thing, thing.source, resource
    {
      E.Paper(thing.uri, thing.comments, thing.labelText, thing.source.Build(),
              thing.retrievedFrom, thing.related,
              resource.abstractText, resource.license, resource.keywords,
              resource.created, resource.modified, resource.version,
              resource.referencedBy, resource.identifiers,
              title, authors, publicationDate, venue, doi, relatedWorks,
              citations, repositories, downloadUrls)
    }

    method SetTitle(title: string)
      modifies this`title
      ensures this.title == Some(title)
    {
      this.title := Some(title);
    }

    method AddAuthor(author: E.Entity)
      modifies this`authors
      ensures authors == E.Insert(old(authors), author)
    {
      authors := E.Insert(authors, author);
    }

    method SetPublicationDate(publicationDate: string)
      modifies this`publicationDate
      ensures this.publicationDate == Some(publicationDate)
    {
      this.publicationDate := Some(publicationDate);
    }

    method SetVenue(venue: Term)
      modifies this`venue
      ensures this.venue == Some(venue)
    {
      this.venue := Some(venue);
    }

    method SetDoi(doi: Term)
      modifies this`doi
      ensures this.doi == Some(doi)
    {
      this.doi := Some(doi);
    }

    method AddRelatedWork(work: E.Entity)
      modifies this`relatedWorks
      ensures relatedWorks == E.Insert(old(relatedWorks), work)
    {
      relatedWorks := E.Insert(relatedWorks, work);
    }

    /** `add_citation_count`: a count equal to one held (same source, count, date) adds nothing. */
    method AddCitationCount(c: E.CitationData)
      modifies this`citations
      ensures citations == E.InsertCitation(old(citations), c)
      ensures (exists y :: y in old(citations) && E.CitationEq(y, c)) ==> citations == old(citations)
    {
      citations := E.InsertCitation(citations, c);
    }

    method AddRepository(repository: Term)
      modifies this`repositories
      ensures repositories == old(repositories) + {repository}
    {
      repositories := repositories + {repository};
    }

    method AddDownloadUrl(url: string)
      modifies this`downloadUrls
      ensures downloadUrls == old(downloadUrls) + {url}
    {
      downloadUrls := downloadUrls + {url};
    }

    method ToRdf(g: Graph)
      modifies g`triples
      ensures g.triples == old(g.triples) + E.Triples(Build())
    {
      Project(Build(), g);
    }
  }

  /** `Software`. */
  class Software {
    const thing: Thing
    const resource: Resource
    var creators: set<E.Entity>
    var languages: set<string>
    var platforms: set<string>
    var codeRepositories: set<string>
    var availableAt: set<string>
    var publication: Option<string>
    var rights: Option<string>

    constructor (source: Source, uri: Term)
      ensures fresh(thing) && fresh(resource)
      ensures Build() == E.NewSoftware(source.Build(), uri)
    {
      thing := new Thing(source, uri);
      resource := new Resource();
      creators, languages, platforms := {}, {}, {};
      codeRepositories, availableAt := {}, {};
      publication, rights := None, None;
    }

    function Build(): E.Entity
      reads this, thing, thing.source, resource
    {
      E.Software(thing.uri, thing.comments, thing.labelText, thing.source.Build(),
                 thing.retrievedFrom, thing.related,
                 resource.abstractText, resource.license, resource.keywords,
                 resource.created, resource.modified, resource.version,
                 resource.referencedBy, resource.identifiers,
                 creators, languages, platforms, codeRepositories, availableAt,
                 publication, rights)
    }

    method AddCreator(creator: E.Entity)
      modifies this`creators
      ensures creators == E.Insert(old(creators), creator)
    {
      creators := E.Insert(creators, creator);
    }

    method AddLanguage(language: string)
      modifies this`languages
      ensures languages == old(languages) + {language}
    {
      languages := languages + {language};
    }

    method AddPlatform(platform: string)
      modifies this`platforms
      ensures platforms == old(platforms) + {platform}
    {
      platforms := platforms + {platform};
    }

    method AddRepository(repository: string)
      modifies this`codeRepositories
      ensures codeRepositories == old(codeRepositories) + {repository}
    {
      codeRepositories := codeRepositories + {repository};
    }

    method AddAvailableAt(availableAt: string)
      modifies this`availableAt
      ensures this.availableAt == old(this.availableAt) + {availableAt}
    {
      this.availableAt := this.availableAt + {availableAt};
    }

    method SetPublication(publication: string)
      modifies this`publication
      ensures this.publication == Some(publication)
    {
      this.publication := Some(publication);
    }

    method SetRights(rights: string)
      modifies this`rights
      ensures this.rights == Some(rights)
    {
      this.rights := Some(rights);
    }

    method ToRdf(g: Graph)
      modifies g`triples
      ensures g.triples == old(g.triples) + E.Triples(Build())
    {
      Project(Build(), g);
    }
  }

  /** `Person`. */
  class Person {
    const thing: Thing
    const agent: Agent
    var firstName: Option<string>
    var lastName: Option<string>
    var alternatives: set<string>
    var orcid: Option<E.Orcid>
    var affiliations: set<E.Entity>
    var identifiers: set<E.Entity>
    var contacts: set<Term>

    constructor (source: Source, uri: Term)
      ensures fresh(thing) && fresh(agent)
      ensures Build() == E.NewPerson(source.Build(), uri)
    {
      thing := new Thing(source, uri);
      agent := new Agent();
      firstName, lastName, alternatives := None, None, {};
      orcid, affiliations, identifiers, contacts := None, {}, {}, {};
    }

    function Build(): E.Entity
      reads this, thing, thing.source, agent
    {
      E.Person(thing.uri, thing.comments, thing.labelText, thing.source.Build(),
               thing.retrievedFrom, thing.related, agent.locations,
               firstName, lastName, alternatives, orcid, affiliations, identifiers, contacts)
    }

    method SetFirstName(firstName: string)
      modifies this`firstName
      ensures this.firstName == Some(firstName)
    {
      this.firstName := Some(firstName);
    }

    method SetLastName(lastName: string)
      modifies this`lastName
      ensures this.lastName == Some(lastName)
    {
      this.lastName := Some(lastName);
    }

    /** `add_alternative`: an alternative already present leaves the set as it was. */
    method AddAlternative(alternative: string)
      modifies this`alternatives
      ensures alternatives == old(alternatives) + {alternative}
      ensures alternative in old(alternatives) ==> alternatives == old(alternatives)
    {
      alternatives := alternatives + {alternative};
    }

    method SetOrcid(orcid: E.Orcid)
      modifies this`orcid
      ensures this.orcid == Some(orcid)
    {
      this.orcid := Some(orcid);
    }

    method AddAffiliation(affiliation: E.Entity)
      modifies this`affiliations
      ensures affiliations == E.Insert(old(affiliations), affiliation)
    {
      affiliations := E.Insert(affiliations, affiliation);
    }

    /** `add_identifier`: an identifier equal to one held leaves the set as it was. */
    method AddIdentifier(identifier: E.Entity)
      modifies this`identifiers
      ensures identifiers == E.Insert(old(identifiers), identifier)
      ensures E.Holds(old(identifiers), identifier) ==> identifiers == old(identifiers)
    {
      identifiers := E.Insert(identifiers, identifier);
    }

    method AddContact(contact: Term)
      modifies this`contacts
      ensures contacts == old(contacts) + {contact}
    {
      contacts := contacts + {contact};
    }

    method ToRdf(g: Graph)
      modifies g`triples
      ensures g.triples == old(g.triples) + E.Triples(Build())
    {
      Project(Build(), g);
    }
  }

  /** `Organization`. */
  class Organization {
    const thing: Thing
    const agent: Agent
    var alternatives: set<string>
    var identifiers: set<E.Entity>

    /**
     * `Organization(source, label)`: the URI is `create_uri(label)`, which
     * falls back to the blank node `Blank(blank)`, and the label is `label`.
     */
    constructor (source: Source, labelText: string, blank: nat)
      ensures fresh(thing) && fresh(agent)
      ensures Build() == E.NewOrganization(source.Build(), labelText, blank)
    {
      thing := new Thing(source, CreateUri(labelText, blank));
      agent := new Agent();
      alternatives, identifiers := {}, {};
      new;
      thing.SetLabel(labelText);
    }

    function Build(): E.Entity
      reads this, thing, thing.source, agent
    {
      E.Organization(thing.uri, thing.comments, thing.labelText, thing.source.Build(),
                     thing.retrievedFrom, thing.related, agent.locations,
                     alternatives, identifiers)
    }

    /** `add_alternative`: an alternative already present leaves the set as it was. */
    method AddAlternative(alternative: string)
      modifies this`alternatives
      ensures alternatives == old(alternatives) + {alternative}
      ensures alternative in old(alternatives) ==> alternatives == old(alternatives)
    {
      alternatives := alternatives + {alternative};
    }

    /** `add_identifier`: an identifier equal to one held leaves the set as it was. */
    method AddIdentifier(identifier: E.Entity)
      modifies this`identifiers
      ensures identifiers == E.Insert(old(identifiers), identifier)
      ensures E.Holds(old(identifiers), identifier) ==> identifiers == old(identifiers)
    {
      identifiers := E.Insert(identifiers, identifier);
    }

    method ToRdf(g: Graph)
      modifies g`triples
      ensures g.triples == old(g.triples) + E.Triples(Build())
    {
      Project(Build(), g);
    }
  }
}
