/**
 * `process_hal_authors`: the HAL author referential is read page by page;
 * every author document with an idHal becomes a Person, with its ORCID,
 * Google Scholar and IdRef identifiers, projected into the person graph.
 *
 * The first page is requested directly; each following page goes through
 * the cache directory `data/hal/author/`. The loop reads the number of
 * matches once, from the first page, and fetches one page past the last
 * one it processes.
 */
module HalAuthors {
  import opened Wrappers
  import opened Numerals
  import opened Rdf
  import opened Utilities
  import opened Fetch
  import opened Hal
  import E = Entities
  import K = Knowledge

  /** One document of the author API, each field missing, null or given. */
  datatype AuthorDoc = AuthorDoc(
    idHal: Field<string>, fullName: Field<string>, firstName: Field<string>,
    lastName: Field<string>, fullNameSci: Field<string>,
    orcids: Field<seq<string>>, gscholars: Field<seq<string>>, idrefs: Field<seq<string>>)

  const AUTHOR_API := "http://api.archives-ouvertes.fr/ref/author/"
  const AUTHOR_CACHE := "data/hal/author/"

  /** The request up to the page's first offset, and what follows it. */
  const AUTHOR_URL_HEAD := "http://api.archives-ouvertes.fr/ref/author/?wt=json"
    + "&fl=firstName_s,fullName_sci,firstName_s,lastName_s,idHal_s,orcidId_s,google+scholarId_s,idrefId_s"
    + "&rows=100&start="
  const AUTHOR_URL_TAIL := "&sort=fullName_s+asc" + "&fq=idHal_s:[\"\" TO *]&q=*"

  /** The request for page `page`. */
  function AuthorUrl(page: nat): string
  {
    AUTHOR_URL_HEAD + NatText(page * PAGE_SIZE) + AUTHOR_URL_TAIL
  }

  /** The requests for `count` pages from page `first` on. */
  function AuthorUrls(first: nat, count: nat): (urls: seq<string>)
    ensures |urls| == count
  {
    if count == 0 then [] else AuthorUrls(first, count - 1) + [AuthorUrl(first + count - 1)]
  }

  /** The `k`-th of the requests is the one for page `first + k`. */
  lemma {:induction false} AuthorUrlsAt(first: nat, count: nat, k: nat)
    requires k < count
    ensures AuthorUrls(first, count)[k] == AuthorUrl(first + k)
  {
    if k < count - 1 {
      AuthorUrlsAt(first, count - 1, k);
    }
  }

  /** Different pages are different requests, so they are cached apart. */
  lemma AuthorUrlInjective(p: nat, q: nat)
    ensures AuthorUrl(p) == AuthorUrl(q) ==> p == q
  {
    if AuthorUrl(p) == AuthorUrl(q) {
      assert AUTHOR_URL_TAIL[0] == '&';
      PagedUrlInjective(AUTHOR_URL_HEAD, AUTHOR_URL_TAIL, p, q);
    }
  }

  // ---------------------------------------------------------------------
  // One author

  /**
   * The texts handed to `create_uri` by the ORCID, Google Scholar and IdRef
   * loops, in order: the ORCIDs behind the ORCID namespace, the others as
   * they are.
   */
  function AuthorIdentifierTexts(doc: AuthorDoc): (texts: seq<string>)
    ensures var o, s, r := Items(doc.orcids), Items(doc.gscholars), Items(doc.idrefs);
      && |texts| == |o| + |s| + |r|
      && (forall k :: 0 <= k < |o| ==> texts[k] == ORCID_NS + o[k])
      && (forall k :: 0 <= k < |s| ==> texts[|o| + k] == s[k])
      && (forall k :: 0 <= k < |r| ==> texts[|o| + |s| + k] == r[k])
  {
    Prefixed(ORCID_NS, Items(doc.orcids)) + Items(doc.gscholars) + Items(doc.idrefs)
  }

  /** The number of `BNode`s an author document draws: one per `create_uri`. */
  function AuthorBlanks(doc: AuthorDoc): nat
  {
    if Given(doc.idHal) then 1 + |AuthorIdentifierTexts(doc)| else 0
  }

  /** The value a guarded optional setter leaves: the field when given. */
  function OrElse(f: Field<string>, o: Option<string>): Option<string>
  {
    if Given(f) then Some(f.value) else o
  }

  /**
   * The identifiers after the three identifier loops, whose `create_uri`s
   * draw the blanks after the person's own.
   */
  function AuthorIdentifierSet(doc: AuthorDoc, src: E.SourceData, lit: Literal, b: nat, mint: Minter): set<E.Entity>
  {
    WithIdentifiers({}, src, lit, AuthorIdentifierTexts(doc), b + 1, mint)
  }

  /**
   * The Person an author document describes, on `uri` and holding the
   * identifiers `ids`: the label, names and alternative name set when the
   * document gives them.
   */
  function AuthorPerson(doc: AuthorDoc, src: E.SourceData, lit: Literal, uri: Term, ids: set<E.Entity>): (p: E.Entity)
    ensures p.Person? && p.uri == uri && p.identifiers == ids && p.source == src && p.retrievedFrom == Some(lit)
  {
    E.Person(uri, {}, if Given(doc.fullName) then doc.fullName.value else Text(uri), src, Some(lit), [], {},
             OrElse(doc.firstName, None), OrElse(doc.lastName, None),
             if Given(doc.fullNameSci) then {doc.fullNameSci.value} else {},
             None, {}, ids, {})
  }

  /**
   * The Person built from an author document with an idHal, the i-th
   * `create_uri` falling back to blank `b + i`.
   */
  function AuthorEntity(doc: AuthorDoc, src: E.SourceData, lit: Literal, b: nat, mint: Minter): (p: E.Entity)
    requires Given(doc.idHal)
  {
    AuthorPerson(doc, src, lit, mint(HAL_AUTHOR_NS + doc.idHal.value, b), AuthorIdentifierSet(doc, src, lit, b, mint))
  }

  /** The persons one author document yields: one with an idHal, none without. */
  function AuthorPersons(doc: AuthorDoc, src: E.SourceData, lit: Literal, b: nat, mint: Minter): seq<E.Entity>
  {
    if Given(doc.idHal) then [AuthorEntity(doc, src, lit, b, mint)] else []
  }

  /**
   * An author with an idHal is a foaf:Person retrieved from the page's
   * request, with the first and last names the document gives.
   */
  lemma AuthorProjected(doc: AuthorDoc, src: E.SourceData, lit: Literal, b: nat, mint: Minter)
    requires Given(doc.idHal)
    ensures var p := AuthorEntity(doc, src, lit, b, mint);
      && (p.uri, RDF_TYPE, FOAF_PERSON) in E.Triples(p)
      && (p.uri, PAV_RETRIEVED_FROM, Lit(lit)) in E.Triples(p)
      && (Given(doc.firstName) ==> (p.uri, FOAF_FIRST_NAME, Str(doc.firstName.value)) in E.Triples(p))
      && (Given(doc.lastName) ==> (p.uri, FOAF_LAST_NAME, Str(doc.lastName.value)) in E.Triples(p))
  {
    var p := AuthorEntity(doc, src, lit, b, mint);
    E.ThingProjection(p);
    E.PersonProjection(p);
  }

  /**
   * One identifier loop: for each `x` of `xs`, an Identifier on
   * `create_uri(ns + x)` retrieved from `lit` is added to the person.
   */
  method AddIdentifiers(person: K.Person, src: K.Source, lit: Literal, ns: string, xs: seq<string>, blanks: BlankNodes, mint: Minter)
    modifies person`identifiers, blanks
    ensures person.identifiers == WithIdentifiers(old(person.identifiers), src.Build(), lit, Prefixed(ns, xs), old(blanks.next), mint)
    ensures blanks.next == old(blanks.next) + |xs|
  {
    ghost var ids := IdentifiersOf(src.Build(), lit, CreatedUris(Prefixed(ns, xs), old(blanks.next), mint));
    var i := 0;
    while i < |xs|
      invariant 0 <= i <= |xs|
      invariant person.identifiers == E.AddedAll(old(person.identifiers), ids[..i], E.Insert)
      invariant blanks.next == old(blanks.next) + i
    {
      var b := blanks.Fresh();
      var id := new K.UniqueIdentifier(src, mint(ns + xs[i], b));
      id.thing.SetRetrievedFrom(lit);
      E.AddedAllNext(old(person.identifiers), ids, E.Insert, i);
      assert id.Build() == ids[i];
      person.AddIdentifier(id.Build());
      i := i + 1;
    }
    assert ids[..|xs|] == ids;
  }

  /** The loops run without a prefix hand each text to `create_uri` as it is. */
  lemma PrefixedEmpty(xs: seq<string>)
    ensures Prefixed("", xs) == xs
  {
    assert forall i :: 0 <= i < |xs| ==> "" + xs[i] == xs[i];
  }

  /** Three identifier loops in a row build the identifiers of one loop over all their texts. */
  lemma ThreeLoops(s: set<E.Entity>, src: E.SourceData, lit: Literal, o: seq<string>, g: seq<string>, r: seq<string>, b: nat, bg: nat, br: nat, mint: Minter)
    requires bg == b + |o| && br == bg + |g|
    ensures WithIdentifiers(WithIdentifiers(WithIdentifiers(s, src, lit, o, b, mint), src, lit, g, bg, mint), src, lit, r, br, mint)
      == WithIdentifiers(s, src, lit, o + g + r, b, mint)
  {
    WithIdentifiersAppend(s, src, lit, o, g, b, bg, mint);
    WithIdentifiersAppend(s, src, lit, o + g, r, b, br, mint);
  }

  /** The guarded name setters: `firstName_s`, `lastName_s` and `fullName_sci` when given. */
  method SetAuthorNames(person: K.Person, doc: AuthorDoc)
    modifies person`firstName, person`lastName, person`alternatives
    ensures person.firstName == OrElse(doc.firstName, old(person.firstName))
    ensures person.lastName == OrElse(doc.lastName, old(person.lastName))
    ensures person.alternatives == old(person.alternatives) + if Given(doc.fullNameSci) then {doc.fullNameSci.value} else {}
  {
    if Given(doc.firstName) {
      person.SetFirstName(doc.firstName.value);
    }
    if Given(doc.lastName) {
      person.SetLastName(doc.lastName.value);
    }
    if Given(doc.fullNameSci) {
      person.AddAlternative(doc.fullNameSci.value);
    }
  }

  /** `Person.Builder(...)` with the guarded setters, before the identifier loops. */
  method NewAuthorPerson(doc: AuthorDoc, src: K.Source, lit: Literal, uri: Term) returns (person: K.Person)
    ensures fresh(person) && fresh(person.thing) && fresh(person.agent)
    ensures person.Build() == AuthorPerson(doc, src.Build(), lit, uri, {})
  {
    person := new K.Person(src, uri);
    person.thing.SetRetrievedFrom(lit);
    if Given(doc.fullName) {
      person.thing.SetLabel(doc.fullName.value);
    }
    SetAuthorNames(person, doc);
  }

  /** The ORCID, Google Scholar and IdRef loops, each text drawing the next blank. */
  method AddAuthorIdentifiers(person: K.Person, doc: AuthorDoc, src: K.Source, lit: Literal, blanks: BlankNodes, mint: Minter)
    modifies person`identifiers, blanks
    ensures person.identifiers == WithIdentifiers(old(person.identifiers), src.Build(), lit, AuthorIdentifierTexts(doc), old(blanks.next), mint)
    ensures blanks.next == old(blanks.next) + |AuthorIdentifierTexts(doc)|
  {
    ghost var s0, b0, sd := person.identifiers, blanks.next, src.Build();
    var o, gs, r := Items(doc.orcids), Items(doc.gscholars), Items(doc.idrefs);
    ghost var po := Prefixed(ORCID_NS, o);
    AddIdentifiers(person, src, lit, ORCID_NS, o, blanks, mint);
    ghost var s1, b1 := person.identifiers, blanks.next;
    AddIdentifiers(person, src, lit, "", gs, blanks, mint);
    PrefixedEmpty(gs);
    ghost var s2, b2 := person.identifiers, blanks.next;
    AddIdentifiers(person, src, lit, "", r, blanks, mint);
    PrefixedEmpty(r);
    ThreeLoops(s0, sd, lit, po, gs, r, b0, b1, b2, mint);
  }

  /**
   * `Person.Builder(...)` with the guarded setters and the three identifier
   * loops, built: the Person of an author document with an idHal.
   */
  method NewAuthor(doc: AuthorDoc, src: K.Source, lit: Literal, blanks: BlankNodes, mint: Minter) returns (person: K.Person)
    requires Given(doc.idHal)
    modifies blanks
    ensures fresh(person)
    ensures person.Build() == AuthorEntity(doc, src.Build(), lit, old(blanks.next), mint)
    ensures blanks.next == old(blanks.next) + AuthorBlanks(doc)
  {
    var b := blanks.Fresh();
    var uri := mint(HAL_AUTHOR_NS + doc.idHal.value, b);
    person := NewAuthorPerson(doc, src, lit, uri);
    AddAuthorIdentifiers(person, doc, src, lit, blanks, mint);
    assert person.identifiers == AuthorIdentifierSet(doc, src.Build(), lit, b, mint);
  }

  /**
   * The body of the document loop: an author with an idHal becomes a
   * Person projected into the graph; one without adds nothing and draws no
   * blank.
   */
  method AuthorToRdf(doc: AuthorDoc, src: K.Source, lit: Literal, g: Graph, blanks: BlankNodes, mint: Minter)
    modifies g`triples, blanks
    ensures g.triples == old(g.triples) + Projected(AuthorTurn(doc, src.Build(), lit, old(blanks.next), mint).0, E.Triples)
    ensures blanks.next == old(blanks.next) + AuthorTurn(doc, src.Build(), lit, old(blanks.next), mint).1
  {
    if Given(doc.idHal) {
      var person := NewAuthor(doc, src, lit, blanks, mint);
      person.ToRdf(g);
      ProjectedOne(person.Build(), E.Triples);
    } else {
      assert Projected([], E.Triples) == {};
      assert old(g.triples) + {} == old(g.triples);
    }
  }

  // ---------------------------------------------------------------------
  // Pages

  /** What the turn of one author document yields: its Person, if any, and the blanks it draws. */
  function AuthorTurn(doc: AuthorDoc, src: E.SourceData, lit: Literal, b: nat, mint: Minter): (seq<E.Entity>, nat)
  {
    (AuthorPersons(doc, src, lit, b, mint), AuthorBlanks(doc))
  }

  /** The turn of the document loop of a page requested as `lit`. */
  function AuthorStep(src: E.SourceData, lit: Literal, mint: Minter): (AuthorDoc, nat) -> (seq<E.Entity>, nat)
  {
    (doc, b) => AuthorTurn(doc, src, lit, b, mint)
  }

  /** The document loop of one page, from blank `b` on. */
  function DocsRun(docs: seq<AuthorDoc>, src: E.SourceData, lit: Literal, b: nat, mint: Minter): (seq<E.Entity>, nat)
  {
    Turns(docs, b, AuthorStep(src, lit, mint))
  }

  /** `for author in docs: ...` */
  method PageToRdf(docs: seq<AuthorDoc>, src: K.Source, lit: Literal, g: Graph, blanks: BlankNodes, mint: Minter)
    modifies g`triples, blanks
    ensures g.triples == old(g.triples) + Projected(DocsRun(docs, src.Build(), lit, old(blanks.next), mint).0, E.Triples)
    ensures blanks.next == old(blanks.next) + DocsRun(docs, src.Build(), lit, old(blanks.next), mint).1
  {
    ghost var step := AuthorStep(src.Build(), lit, mint);
    var i := 0;
    while i < |docs|
      invariant 0 <= i <= |docs|
      invariant g.triples == old(g.triples) + Projected(Turns(docs[..i], old(blanks.next), step).0, E.Triples)
      invariant blanks.next == old(blanks.next) + Turns(docs[..i], old(blanks.next), step).1
    {
      ghost var before, bi := g.triples, blanks.next;
      ghost var prev := Turns(docs[..i], old(blanks.next), step);
      ghost var turn := AuthorTurn(docs[i], src.Build(), lit, bi, mint);
      AuthorToRdf(docs[i], src, lit, g, blanks, mint);
      TurnsNext(docs, old(blanks.next), step, i, bi);
      assert step(docs[i], bi) == turn;
      ProjectedAppend(prev.0, turn.0, E.Triples);
      Grow(old(g.triples), Projected(prev.0, E.Triples), Projected(turn.0, E.Triples), before, g.triples,
           Projected(prev.0 + turn.0, E.Triples));
      i := i + 1;
    }
    assert docs[..|docs|] == docs;
  }

  /** An author document without an idHal changes nothing. */
  lemma AuthorSkipped(docs: seq<AuthorDoc>, doc: AuthorDoc, src: E.SourceData, lit: Literal, b: nat, mint: Minter)
    requires !Given(doc.idHal)
    ensures DocsRun(docs + [doc], src, lit, b, mint) == DocsRun(docs, src, lit, b, mint)
  {
    TurnsSkip(docs, doc, b, AuthorStep(src, lit, mint));
  }

  /** The turn of an author with an idHal types its URI foaf:Person. */
  lemma AuthorTurnTyped(doc: AuthorDoc, src: E.SourceData, lit: Literal, b: nat, mint: Minter)
    requires Given(doc.idHal)
    ensures (mint(HAL_AUTHOR_NS + doc.idHal.value, b), RDF_TYPE, FOAF_PERSON) in Projected(AuthorStep(src, lit, mint)(doc, b).0, E.Triples)
  {
    var p := AuthorEntity(doc, src, lit, b, mint);
    AuthorProjected(doc, src, lit, b, mint);
    ProjectedMember([p], p, E.Triples, (p.uri, RDF_TYPE, FOAF_PERSON));
  }

  /**
   * Every author of a page with an idHal is typed foaf:Person in what the
   * page adds, under the URI minted for it when its turn came: after the
   * blanks the earlier authors took.
   */
  lemma PageAuthorsTyped(docs: seq<AuthorDoc>, k: nat, src: E.SourceData, lit: Literal, b: nat, bk: nat, mint: Minter)
    requires k < |docs| && Given(docs[k].idHal)
    requires bk == b + DocsRun(docs[..k], src, lit, b, mint).1
    ensures (mint(HAL_AUTHOR_NS + docs[k].idHal.value, bk), RDF_TYPE, FOAF_PERSON) in Projected(DocsRun(docs, src, lit, b, mint).0, E.Triples)
  {
    AuthorTurnTyped(docs[k], src, lit, bk, mint);
    TurnsProjected(docs, k, b, bk, AuthorStep(src, lit, mint), E.Triples, (mint(HAL_AUTHOR_NS + docs[k].idHal.value, bk), RDF_TYPE, FOAF_PERSON));
  }

  // ---------------------------------------------------------------------
  // The paging loop

  /** A page the loop processes: the request it answered and its response. */
  type Visit = (string, Page<AuthorDoc>)

  /** One more page: its document loop, each Person retrieved from the page's request. */
  function PageStep(src: E.SourceData, mint: Minter): (Visit, nat) -> (seq<E.Entity>, nat)
  {
    (v: Visit, b: nat) => DocsRun(v.1.docs, src, Plain(v.0), b, mint)
  }

  /** Page `first + count` is requested after the pages `first` to `first + count - 1`. */
  lemma AuthorUrlsNext(first: nat, count: nat, page: nat)
    requires page == first + count
    ensures AuthorUrls(first, count + 1) == AuthorUrls(first, count) + [AuthorUrl(page)]
  {
  }

  /**
   * The pages processed when the first response reports `numFound`
   * matches and `fetched` are the responses cache-or-fetch gave for pages
   * 1 onwards: page 0 is the first response, page `k` the `k`-th fetched.
   */
  function AuthorVisits(first: Page<AuthorDoc>, fetched: seq<Page<AuthorDoc>>): (visits: seq<Visit>)
    requires |fetched| == PageCount(first.numFound)
    ensures |visits| == PageCount(first.numFound)
  {
    var n := PageCount(first.numFound);
    Zip(AuthorUrls(0, n), ([first] + fetched)[..n])
  }

  /**
   * Page `k` is processed with the request for page `k` as its literal,
   * and with the first response for page 0 and the `k`-th fetched one
   * after it.
   */
  lemma AuthorVisitsAt(first: Page<AuthorDoc>, fetched: seq<Page<AuthorDoc>>, k: nat)
    requires |fetched| == PageCount(first.numFound) && k < PageCount(first.numFound)
    ensures AuthorVisits(first, fetched)[k].0 == AuthorUrl(k)
    ensures AuthorVisits(first, fetched)[k].1 == if k == 0 then first else fetched[k - 1]
  {
    AuthorUrlsAt(0, PageCount(first.numFound), k);
  }

  /** What the whole harvest yields, from blank `b` on: the Persons of every page in turn. */
  function AuthorHarvest(first: Page<AuthorDoc>, fetched: seq<Page<AuthorDoc>>, src: E.SourceData, b: nat, mint: Minter): (seq<E.Entity>, nat)
    requires |fetched| == PageCount(first.numFound)
  {
    Turns(AuthorVisits(first, fetched), b, PageStep(src, mint))
  }

  /**
   * Recording the visit to page `page` extends the visits by the page's
   * request and response, whatever the response to the next page is.
   */
  lemma ZipVisitsNext(first: Page<AuthorDoc>, pages: seq<Page<AuthorDoc>>, fetched: seq<Page<AuthorDoc>>, page: nat, next: nat,
                      done: seq<Visit>, result: Page<AuthorDoc>)
    requires next == page + 1 && |pages| == page && |fetched| == next && fetched[..page] == pages
    requires done == Zip(AuthorUrls(0, page), ([first] + pages)[..page])
    requires result == ([first] + pages)[page]
    ensures done + [(AuthorUrl(page), result)] == Zip(AuthorUrls(0, next), ([first] + fetched)[..next])
    ensures ([first] + fetched)[next] == fetched[page]
  {
    AuthorUrlsNext(0, page, page);
    ZipNext(AuthorUrls(0, page), ([first] + pages)[..page], AuthorUrl(page), result);
    assert ([first] + pages)[..page] + [result] == ([first] + fetched)[..next];
  }

  /**
   * After page `page` is processed and page `next` cache-or-fetched, the
   * run of fetches covers pages 1 to `next` and the visits gain page `page`.
   */
  lemma VisitsNext(cache: CacheDir<Page<AuthorDoc>>, files: map<string, Page<AuthorDoc>>, respond: string -> Page<AuthorDoc>,
                   first: Page<AuthorDoc>, page: nat, next: nat, done: seq<Visit>, result: Page<AuthorDoc>)
    requires next == page + 1
    requires |cache.FetchAll(files, AuthorUrls(1, page), respond).0| == page
    requires done == Zip(AuthorUrls(0, page), ([first] + cache.FetchAll(files, AuthorUrls(1, page), respond).0)[..page])
    requires result == ([first] + cache.FetchAll(files, AuthorUrls(1, page), respond).0)[page]
    ensures var run := cache.FetchAll(files, AuthorUrls(1, page), respond);
      cache.FetchAll(files, AuthorUrls(1, next), respond)
        == (run.0 + [cache.Fetched(run.1, AuthorUrl(next), respond)], cache.CachedAfter(run.1, AuthorUrl(next), respond),
            run.2 + cache.Missed(run.1, AuthorUrl(next)))
    ensures var fetched := cache.FetchAll(files, AuthorUrls(1, next), respond).0;
      && |fetched| == next
      && done + [(AuthorUrl(page), result)] == Zip(AuthorUrls(0, next), ([first] + fetched)[..next])
      && ([first] + fetched)[next] == fetched[page]
  {
    var run := cache.FetchAll(files, AuthorUrls(1, page), respond);
    AuthorUrlsNext(1, page, next);
    cache.FetchAllNext(files, AuthorUrls(1, page), AuthorUrl(next), respond);
    var fetched := cache.FetchAll(files, AuthorUrls(1, next), respond).0;
    assert fetched == run.0 + [cache.Fetched(run.1, AuthorUrl(next), respond)];
    assert fetched[..page] == run.0;
    ZipVisitsNext(first, run.0, fetched, page, next, done, result);
  }

  /**
   * One turn of the paging loop: the authors of the page fetched by
   * `url` go into the graph, from the blank the earlier pages left on.
   */
  method HarvestPage(url: string, result: Page<AuthorDoc>, src: K.Source, g: Graph, blanks: BlankNodes, mint: Minter,
                     ghost sd: E.SourceData, ghost done: seq<Visit>, ghost b0: nat, ghost base: set<Triple>)
    requires src.Build() == sd
    requires g.triples == base + Projected(Turns(done, b0, PageStep(sd, mint)).0, E.Triples)
    requires blanks.next == b0 + Turns(done, b0, PageStep(sd, mint)).1
    modifies g`triples, blanks
    ensures g.triples == base + Projected(Turns(done + [(url, result)], b0, PageStep(sd, mint)).0, E.Triples)
    ensures blanks.next == b0 + Turns(done + [(url, result)], b0, PageStep(sd, mint)).1
  {
    ghost var before, bp := g.triples, blanks.next;
    PageToRdf(result.docs, src, Plain(url), g, blanks, mint);
    TurnsGrow(done, (url, result), b0, bp, PageStep(sd, mint), E.Triples, base, before, g.triples);
  }

  /**
   * The other half of a turn of the paging loop: the visit to page `page`
   * is recorded and the next page is cache-or-fetched, which extends the
   * run of fetches by one request.
   */
  method FetchNextPage(cache: CacheDir<Page<AuthorDoc>>, api: Endpoint<Page<AuthorDoc>>, page: nat, url: string,
                       ghost files: map<string, Page<AuthorDoc>>, ghost log: seq<string>, ghost first: Page<AuthorDoc>,
                       ghost done: seq<Visit>, ghost result: Page<AuthorDoc>, ghost run: (seq<Page<AuthorDoc>>, map<string, Page<AuthorDoc>>, seq<string>))
    returns (next: nat, nextUrl: string, nextResult: Page<AuthorDoc>,
             ghost visits: seq<Visit>, ghost nextRun: (seq<Page<AuthorDoc>>, map<string, Page<AuthorDoc>>, seq<string>))
    requires url == AuthorUrl(page)
    requires run == cache.FetchAll(files, AuthorUrls(1, page), api.respond)
    requires cache.files == run.1 && api.requests == log + run.2
    requires |run.0| == page && result == ([first] + run.0)[page]
    requires done == Zip(AuthorUrls(0, page), ([first] + run.0)[..page])
    modifies cache`files, api`requests
    ensures next == page + 1 && nextUrl == AuthorUrl(next) && visits == done + [(url, result)]
    ensures nextRun == cache.FetchAll(files, AuthorUrls(1, next), api.respond)
    ensures cache.files == nextRun.1 && api.requests == log + nextRun.2
    ensures |nextRun.0| == next && nextResult == ([first] + nextRun.0)[next]
    ensures visits == Zip(AuthorUrls(0, next), ([first] + nextRun.0)[..next])
  {
    next := page + 1;
    VisitsNext(cache, files, api.respond, first, page, next, done, result);
    visits := done + [(url, result)];
    nextUrl := AuthorUrl(next);
    LogAppend(log, run.2, cache.Missed(run.1, nextUrl));
    nextResult := cache.Fetch(nextUrl, api);
    nextRun := cache.FetchAll(files, AuthorUrls(1, next), api.respond);
  }

  /**
   * `process_hal_authors`: page 0 is requested directly, its `numFound`
   * read once; while `page * 100 < numFound` the current page's authors go
   * into the graph, then the next page is cache-or-fetched, including the
   * one past the last page processed.
   */
  method ProcessHalAuthors(api: Endpoint<Page<AuthorDoc>>, cache: CacheDir<Page<AuthorDoc>>, refreshed: string, retrieved: string,
                           g: Graph, blanks: BlankNodes, mint: Minter)
    modifies api`requests, cache`files, g`triples, blanks
    ensures var first := api.respond(AuthorUrl(0));
      var run := cache.FetchAll(old(cache.files), AuthorUrls(1, PageCount(first.numFound)), api.respond);
      var harvest := AuthorHarvest(first, run.0, E.NewSource(AUTHOR_API, refreshed, retrieved), old(blanks.next), mint);
      && api.requests == old(api.requests) + [AuthorUrl(0)] + run.2
      && cache.files == run.1
      && g.triples == old(g.triples) + Projected(harvest.0, E.Triples)
      && blanks.next == old(blanks.next) + harvest.1
  {
    var src := new K.Source(AUTHOR_API, refreshed, retrieved);
    ghost var sd, files0, b0, base := src.Build(), cache.files, blanks.next, g.triples;
    var first := api.Get(AuthorUrl(0));
    AuthorPages(api, cache, src, g, blanks, mint, first, sd, api.requests, files0, b0, base);
  }

  /**
   * The paging loop of `process_hal_authors` once the first page is in:
   * page after page, each processed and the next one cache-or-fetched,
   * until the pages cover `numFound`.
   */
  method AuthorPages(api: Endpoint<Page<AuthorDoc>>, cache: CacheDir<Page<AuthorDoc>>, src: K.Source, g: Graph, blanks: BlankNodes,
                     mint: Minter, first: Page<AuthorDoc>, ghost sd: E.SourceData, ghost reqs0: seq<string>,
                     ghost files0: map<string, Page<AuthorDoc>>, ghost b0: nat, ghost base: set<Triple>)
    requires src.Build() == sd && api.requests == reqs0
    requires cache.files == files0 && blanks.next == b0 && g.triples == base
    modifies api`requests, cache`files, g`triples, blanks
    ensures var run := cache.FetchAll(files0, AuthorUrls(1, PageCount(first.numFound)), api.respond);
      var harvest := AuthorHarvest(first, run.0, sd, b0, mint);
      && api.requests == reqs0 + run.2
      && cache.files == run.1
      && g.triples == base + Projected(harvest.0, E.Triples)
      && blanks.next == b0 + harvest.1
  {
    ghost var step := PageStep(sd, mint);
    var page := 0;
    var url := AuthorUrl(0);
    var result := first;
    var numFound := first.numFound;
    ghost var run := cache.FetchAll(files0, [], api.respond);
    ghost var done: seq<Visit> := [];
    assert AuthorUrls(0, 0) == [] && AuthorUrls(1, 0) == [];
    while page * PAGE_SIZE < numFound
      invariant page <= PageCount(numFound) && url == AuthorUrl(page)
      invariant run == cache.FetchAll(files0, AuthorUrls(1, page), api.respond)
      invariant cache.files == run.1 && api.requests == reqs0 + run.2
      invariant |run.0| == page && result == ([first] + run.0)[page]
      invariant done == Zip(AuthorUrls(0, page), ([first] + run.0)[..page])
      invariant g.triples == base + Projected(Turns(done, b0, step).0, E.Triples)
      invariant blanks.next == b0 + Turns(done, b0, step).1
      modifies api`requests, cache`files, g`triples, blanks
    {
      PageCountIff(numFound, page);
      HarvestPage(url, result, src, g, blanks, mint, sd, done, b0, base);
      page, url, result, done, run := FetchNextPage(cache, api, page, url, files0, reqs0, first, done, result, run);
    }
    PageCountIff(numFound, page);
  }

  /**
   * Every author with an idHal of every page processed is typed
   * foaf:Person in what the harvest adds, under the URI minted for it
   * when its turn came.
   */
  lemma HarvestTyped(first: Page<AuthorDoc>, fetched: seq<Page<AuthorDoc>>, src: E.SourceData, b: nat, mint: Minter,
                     k: nat, bp: nat, j: nat, bj: nat)
    requires |fetched| == PageCount(first.numFound) && k < PageCount(first.numFound)
    requires bp == b + Turns(AuthorVisits(first, fetched)[..k], b, PageStep(src, mint)).1
    requires var v := AuthorVisits(first, fetched)[k];
      && j < |v.1.docs| && Given(v.1.docs[j].idHal)
      && bj == bp + DocsRun(v.1.docs[..j], src, Plain(v.0), bp, mint).1
    ensures var doc := AuthorVisits(first, fetched)[k].1.docs[j];
      (mint(HAL_AUTHOR_NS + doc.idHal.value, bj), RDF_TYPE, FOAF_PERSON) in Projected(AuthorHarvest(first, fetched, src, b, mint).0, E.Triples)
  {
    var visits := AuthorVisits(first, fetched);
    var v := visits[k];
    var t := (mint(HAL_AUTHOR_NS + v.1.docs[j].idHal.value, bj), RDF_TYPE, FOAF_PERSON);
    PageAuthorsTyped(v.1.docs, j, src, Plain(v.0), bp, bj, mint);
    assert PageStep(src, mint)(v, bp) == DocsRun(v.1.docs, src, Plain(v.0), bp, mint);
    TurnsProjected(visits, k, b, bp, PageStep(src, mint), E.Triples, t);
  }
}
