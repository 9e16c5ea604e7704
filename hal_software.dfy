/**
 * `process_hal_software`: the HAL search API is read page by page for
 * documents of type SOFTWARE; every document becomes a Software with its
 * titles, abstract, keywords, creators (persons and organizations),
 * repositories, languages, platforms, dates and rights, projected into the
 * software graph.
 *
 * A first request reads the number of matches; the loop then requests
 * every page, page 0 included, through the cache directory
 * `data/hal/software/`, with a request whose parameters come in another
 * order than the first one's. A document without a `halId_s` raises and
 * ends the harvest before anything of it is built; a document without a
 * `title_s` key raises after its Software is projected.
 */
module HalSoftware {
  import opened Wrappers
  import opened Numerals
  import opened Rdf
  import opened Utilities
  import opened Fetch
  import opened Hal
  import E = Entities
  import K = Knowledge

  /** One document of the search API, each field missing, null or given. */
  datatype SoftwareDoc = SoftwareDoc(
    halId: Field<string>,
    titles: Field<seq<string>>,
    abstracts: Field<seq<string>>,
    keywords: Field<seq<string>>,
    authFullNames: Field<seq<string>>,
    authIdHals: Field<seq<string>>,
    authOrcids: Field<seq<string>>,
    authGscholars: Field<seq<string>>,
    repositories: Field<seq<string>>,
    languages: Field<seq<string>>,
    platforms: Field<seq<string>>,
    modified: Field<string>,
    released: Field<string>,
    published: Field<string>,
    structRors: Field<seq<string>>,
    structIdrefs: Field<seq<string>>,
    labRors: Field<seq<string>>,
    labIdrefs: Field<seq<string>>,
    openAccess: Field<bool>)

  const SOFTWARE_API := "https://api.archives-ouvertes.fr/search/?fq=docType_s:SOFTWARE"
  const SOFTWARE_CACHE := "data/hal/software/"
  const OPEN_ACCESS := "Open Access"

  const SOFTWARE_FIELDS := "halId_s,docid,label_s,uri_s,title_s,abstract_s,keyword_s,authFullName_s,authIdHal_s,"
    + "authORCIDIdExt_s,authGoogle ScholarIdExt_s,softCodeRepository_s,softProgrammingLanguage_s,softPlatform_s,"
    + "modifiedDate_tdate,releasedDate_tdate,publicationDate_tdate,structRorIdExt_s,structIdrefIdExtUrl_s,"
    + "labStructRorIdExt_s,labStructIdrefIdExtUrl_s,openAccess_bool,label_xml"

  /** The first request, read only for the number of matches: the query comes first. */
  const SOFTWARE_FIRST_URL := "https://api.archives-ouvertes.fr/search/?wt=json&q=*&fq=docType_s:SOFTWARE&fl="
    + SOFTWARE_FIELDS + "&rows=100&start=0&sort=docid+asc"

  /** The loop's request up to the page's first offset, and what follows it: the query comes last. */
  const SOFTWARE_URL_HEAD := "https://api.archives-ouvertes.fr/search/?wt=json&fq=docType_s:SOFTWARE&fl="
    + SOFTWARE_FIELDS + "&rows=100&start="
  const SOFTWARE_URL_TAIL := "&sort=docid+asc&q=*"

  /** The loop's request for page `page`. */
  function SoftwareUrl(page: nat): string
  {
    SOFTWARE_URL_HEAD + NatText(page * PAGE_SIZE) + SOFTWARE_URL_TAIL
  }

  /** The loop's requests for pages 0 to `count - 1`. */
  function SoftwareUrls(count: nat): (urls: seq<string>)
    ensures |urls| == count
  {
    if count == 0 then [] else SoftwareUrls(count - 1) + [SoftwareUrl(count - 1)]
  }

  /** The `k`-th of the loop's requests is the one for page `k`. */
  lemma {:induction false} SoftwareUrlsAt(count: nat, k: nat)
    requires k < count
    ensures SoftwareUrls(count)[k] == SoftwareUrl(k)
  {
    if k < count - 1 {
      SoftwareUrlsAt(count - 1, k);
    }
  }

  /** Different pages are different requests, so they are cached apart. */
  lemma SoftwareUrlInjective(p: nat, q: nat)
    ensures SoftwareUrl(p) == SoftwareUrl(q) ==> p == q
  {
    if SoftwareUrl(p) == SoftwareUrl(q) {
      assert SOFTWARE_URL_TAIL[0] == '&';
      PagedUrlInjective(SOFTWARE_URL_HEAD, SOFTWARE_URL_TAIL, p, q);
    }
  }

  /**
   * The loop does not reuse the first request, even for page 0: the two
   * differ right after `wt=json&`, so page 0 is requested twice.
   */
  lemma FirstUrlDiffers()
    ensures SOFTWARE_FIRST_URL != SoftwareUrl(0)
  {
    var at := |"https://api.archives-ouvertes.fr/search/?wt=json&"|;
    assert SOFTWARE_FIRST_URL[at] == 'q';
    assert SoftwareUrl(0)[at] == 'f';
  }

  // ---------------------------------------------------------------------
  // Field values

  /** The texts a set-adding loop leaves in the set. */
  function ItemSet(xs: seq<string>): (s: set<string>)
    ensures forall x :: x in s <==> x in xs
  {
    set x | x in xs
  }

  /** One more turn of a set-adding loop adds its text. */
  lemma ItemSetNext(xs: seq<string>, i: nat)
    requires i < |xs|
    ensures ItemSet(xs[..i + 1]) == ItemSet(xs[..i]) + {xs[i]}
  {
    assert xs[..i + 1] == xs[..i] + [xs[i]];
  }

  /** What a loop of setters leaves: the last text, or `d` when there is none. */
  function LastOr(xs: seq<string>, d: string): (r: string)
    ensures xs == [] ==> r == d
    ensures xs != [] ==> r == xs[|xs| - 1]
  {
    if xs == [] then d else xs[|xs| - 1]
  }

  /** The titles loop, run when `title_s` is filled: the last title wins. */
  method SetLabels(thing: K.Thing, titles: Field<seq<string>>)
    modifies thing`labelText
    ensures thing.labelText == LastOr(Items(titles), old(thing.labelText))
  {
    if Filled(titles) {
      var xs := titles.value;
      var i := 0;
      while i < |xs|
        invariant 0 <= i <= |xs|
        invariant thing.labelText == LastOr(xs[..i], old(thing.labelText))
      {
        thing.SetLabel(xs[i]);
        i := i + 1;
      }
      assert xs[..|xs|] == xs;
    }
  }

  /** The abstracts loop, run when `abstract_s` is filled: the last abstract wins. */
  method SetAbstracts(resource: K.Resource, abstracts: Field<seq<string>>)
    modifies resource`abstractText
    ensures resource.abstractText == if Filled(abstracts) then Some(LastOr(abstracts.value, "")) else old(resource.abstractText)
  {
    if Filled(abstracts) {
      var xs := abstracts.value;
      var i := 0;
      while i < |xs|
        invariant 0 <= i <= |xs|
        invariant i == 0 ==> resource.abstractText == old(resource.abstractText)
        invariant i > 0 ==> resource.abstractText == Some(xs[i - 1])
      {
        resource.SetAbstract(xs[i]);
        i := i + 1;
      }
    }
  }

  /** The `add_keyword` loop, run when `keyword_s` is filled. */
  method AddKeywords(resource: K.Resource, f: Field<seq<string>>)
    modifies resource`keywords
    ensures resource.keywords == old(resource.keywords) + ItemSet(Items(f))
  {
    if Filled(f) {
      var xs := f.value;
      var i := 0;
      while i < |xs|
        invariant 0 <= i <= |xs|
        invariant resource.keywords == old(resource.keywords) + ItemSet(xs[..i])
      {
        ItemSetNext(xs, i);
        resource.AddKeyword(xs[i]);
        i := i + 1;
      }
      assert xs[..|xs|] == xs;
    } else {
      assert ItemSet([]) == {};
    }
  }

  /** The `add_repository` loop, run when `softCodeRepository_s` is filled. */
  method AddRepositories(software: K.Software, f: Field<seq<string>>)
    modifies software`codeRepositories
    ensures software.codeRepositories == old(software.codeRepositories) + ItemSet(Items(f))
  {
    if Filled(f) {
      var xs := f.value;
      var i := 0;
      while i < |xs|
        invariant 0 <= i <= |xs|
        invariant software.codeRepositories == old(software.codeRepositories) + ItemSet(xs[..i])
      {
        ItemSetNext(xs, i);
        software.AddRepository(xs[i]);
        i := i + 1;
      }
      assert xs[..|xs|] == xs;
    } else {
      assert ItemSet([]) == {};
    }
  }

  /** The `add_language` loop, run when `softProgrammingLanguage_s` is filled. */
  method AddLanguages(software: K.Software, f: Field<seq<string>>)
    modifies software`languages
    ensures software.languages == old(software.languages) + ItemSet(Items(f))
  {
    if Filled(f) {
      var xs := f.value;
      var i := 0;
      while i < |xs|
        invariant 0 <= i <= |xs|
        invariant software.languages == old(software.languages) + ItemSet(xs[..i])
      {
        ItemSetNext(xs, i);
        software.AddLanguage(xs[i]);
        i := i + 1;
      }
      assert xs[..|xs|] == xs;
    } else {
      assert ItemSet([]) == {};
    }
  }

  /** The `add_platform` loop, run when `softPlatform_s` is filled. */
  method AddPlatforms(software: K.Software, f: Field<seq<string>>)
    modifies software`platforms
    ensures software.platforms == old(software.platforms) + ItemSet(Items(f))
  {
    if Filled(f) {
      var xs := f.value;
      var i := 0;
      while i < |xs|
        invariant 0 <= i <= |xs|
        invariant software.platforms == old(software.platforms) + ItemSet(xs[..i])
      {
        ItemSetNext(xs, i);
        software.AddPlatform(xs[i]);
        i := i + 1;
      }
      assert xs[..|xs|] == xs;
    } else {
      assert ItemSet([]) == {};
    }
  }

  // ---------------------------------------------------------------------
  // Creators

  /** The creators added so far and the next blank to draw. */
  type Draw = (set<E.Entity>, nat)

  /** `authFullName_s`: a Person on the blank `blank`, labelled with the name. */
  function NamedCreator(name: string, src: E.SourceData, lit: Literal, blank: nat): (p: E.Entity)
    ensures p.Person? && p.uri == Blank(blank) && p.labelText == name && p.retrievedFrom == Some(lit)
  {
    E.Person(Blank(blank), {}, name, src, Some(lit), [], {}, None, None, {}, None, {}, {}, {})
  }

  /** The persons of a full-name loop from blank `b` on: one blank each. */
  function NamedCreators(names: seq<string>, src: E.SourceData, lit: Literal, b: nat): (ps: seq<E.Entity>)
    ensures |ps| == |names|
  {
    seq(|names|, i requires 0 <= i < |names| => NamedCreator(names[i], src, lit, b + i))
  }

  /** The `i`-th person of a full-name loop is on blank `bi`. */
  lemma NamedCreatorsAt(names: seq<string>, src: E.SourceData, lit: Literal, b: nat, i: nat, bi: nat)
    requires i < |names| && bi == b + i
    ensures NamedCreators(names, src, lit, b)[i] == NamedCreator(names[i], src, lit, bi)
  {
  }

  /** The creators after a full-name loop. */
  function WithNamed(st: Draw, names: seq<string>, src: E.SourceData, lit: Literal): (r: Draw)
    ensures r.1 == st.1 + |names|
  {
    (E.AddedAll(st.0, NamedCreators(names, src, lit, st.1), E.Insert), st.1 + |names|)
  }

  /**
   * `authIdHal_s`, `authORCIDIdExt_s`, `authGoogle ScholarIdExt_s`: a
   * Person holding one identifier on `create_uri(text)`, which falls back to
   * blank `b`; the person is on the blank `b + 1`.
   */
  function IdCreator(text: string, src: E.SourceData, lit: Literal, b: nat, mint: Minter): (p: E.Entity)
    ensures p.Person? && p.uri == Blank(b + 1) && p.retrievedFrom == Some(lit)
    ensures p.identifiers == {IdentifierOf(src, lit, mint(text, b))}
  {
    E.Person(Blank(b + 1), {}, Text(Blank(b + 1)), src, Some(lit), [], {}, None, None, {}, None, {},
             E.Insert({}, IdentifierOf(src, lit, mint(text, b))), {})
  }

  /** The persons of an identifier loop from blank `b` on: two blanks each. */
  function IdCreators(ns: string, xs: seq<string>, src: E.SourceData, lit: Literal, b: nat, mint: Minter): (ps: seq<E.Entity>)
    ensures |ps| == |xs|
  {
    seq(|xs|, i requires 0 <= i < |xs| => IdCreator(ns + xs[i], src, lit, b + 2 * i, mint))
  }

  /** The `i`-th person of an identifier loop draws its blanks from `bi` on. */
  lemma IdCreatorsAt(ns: string, xs: seq<string>, src: E.SourceData, lit: Literal, b: nat, mint: Minter, i: nat, bi: nat)
    requires i < |xs| && bi == b + 2 * i
    ensures IdCreators(ns, xs, src, lit, b, mint)[i] == IdCreator(ns + xs[i], src, lit, bi, mint)
  {
  }

  /** The creators after an identifier loop. */
  function WithIds(st: Draw, ns: string, xs: seq<string>, src: E.SourceData, lit: Literal, mint: Minter): (r: Draw)
    ensures r.1 == st.1 + 2 * |xs|
  {
    (E.AddedAll(st.0, IdCreators(ns, xs, src, lit, st.1, mint), E.Insert), st.1 + 2 * |xs|)
  }

  /**
   * `structRorIdExt_s` and the three other structure fields: an
   * Organization holding one identifier on `create_uri(text)`, which falls
   * back to blank `b`. It is labelled with the name of the blank `b + 1`;
   * its URI, `create_uri` of that name, is always the fresh blank `b + 2`
   * (`NewOrgCreator` proves it).
   */
  function OrgCreator(text: string, src: E.SourceData, lit: Literal, b: nat, mint: Minter): (o: E.Entity)
    ensures o.Organization? && o.labelText == Text(Blank(b + 1)) && o.retrievedFrom == Some(lit)
    ensures o.identifiers == {IdentifierOf(src, lit, mint(text, b))}
  {
    E.Organization(Blank(b + 2), {}, Text(Blank(b + 1)), src, Some(lit), [], {}, {},
                   E.Insert({}, IdentifierOf(src, lit, mint(text, b))))
  }

  /** The organizations of a structure loop from blank `b` on: three blanks each. */
  function OrgCreators(xs: seq<string>, src: E.SourceData, lit: Literal, b: nat, mint: Minter): (os: seq<E.Entity>)
    ensures |os| == |xs|
  {
    seq(|xs|, i requires 0 <= i < |xs| => OrgCreator(xs[i], src, lit, b + 3 * i, mint))
  }

  /** The `i`-th organization of a structure loop draws its blanks from `bi` on. */
  lemma OrgCreatorsAt(xs: seq<string>, src: E.SourceData, lit: Literal, b: nat, mint: Minter, i: nat, bi: nat)
    requires i < |xs| && bi == b + 3 * i
    ensures OrgCreators(xs, src, lit, b, mint)[i] == OrgCreator(xs[i], src, lit, bi, mint)
  {
  }

  /** The creators after a structure loop. */
  function WithOrgs(st: Draw, xs: seq<string>, src: E.SourceData, lit: Literal, mint: Minter): (r: Draw)
    ensures r.1 == st.1 + 3 * |xs|
  {
    (E.AddedAll(st.0, OrgCreators(xs, src, lit, st.1, mint), E.Insert), st.1 + 3 * |xs|)
  }

  /** `Identifier.Builder(source, uri)` with `set_retrieved_from(lit)`, built. */
  method NewIdentifier(src: K.Source, lit: Literal, uri: Term) returns (id: E.Entity)
    ensures id == IdentifierOf(src.Build(), lit, uri)
  {
    var identifier := new K.UniqueIdentifier(src, uri);
    identifier.thing.SetRetrievedFrom(lit);
    id := identifier.Build();
  }

  /** One turn of a full-name loop: the person, built, on a fresh blank. */
  method NewNamedCreator(src: K.Source, lit: Literal, name: string, blanks: BlankNodes) returns (p: E.Entity)
    modifies blanks
    ensures p == NamedCreator(name, src.Build(), lit, old(blanks.next)) && blanks.next == old(blanks.next) + 1
  {
    var b := blanks.Fresh();
    var person := new K.Person(src, Blank(b));
    person.thing.SetLabel(name);
    person.thing.SetRetrievedFrom(lit);
    p := person.Build();
  }

  /** One turn of an identifier loop: the identifier's URI, then the person, on fresh blanks. */
  method NewIdCreator(src: K.Source, lit: Literal, text: string, blanks: BlankNodes, mint: Minter) returns (p: E.Entity)
    modifies blanks
    ensures p == IdCreator(text, src.Build(), lit, old(blanks.next), mint)
    ensures blanks.next == old(blanks.next) + 2
  {
    var bu := blanks.Fresh();
    var uri := mint(text, bu);
    var b := blanks.Fresh();
    var id := NewIdentifier(src, lit, uri);
    var person := new K.Person(src, Blank(b));
    person.thing.SetRetrievedFrom(lit);
    person.AddIdentifier(id);
    p := person.Build();
  }

  /** One turn of a structure loop: the identifier's URI, the blank node, then the organization. */
  method NewOrgCreator(src: K.Source, lit: Literal, text: string, blanks: BlankNodes, mint: Minter, ghost sd: E.SourceData)
    returns (o: E.Entity)
    requires src.Build() == sd
    modifies blanks
    ensures o == OrgCreator(text, sd, lit, old(blanks.next), mint)
    ensures blanks.next == old(blanks.next) + 3
  {
    var bu := blanks.Fresh();
    var uri := mint(text, bu);
    var b := blanks.Fresh();
    var bo := blanks.Fresh();
    var id := NewIdentifier(src, lit, uri);
    var name := Text(Blank(b));
    var org := new K.Organization(src, name, bo);
    BlankNameUri(b, bo);
    assert org.Build() == E.Organization(Blank(bo), {}, name, sd, None, [], {}, {}, {});
    org.thing.SetRetrievedFrom(lit);
    org.AddIdentifier(id);
    o := org.Build();
    assert o == E.Organization(Blank(bo), {}, name, sd, Some(lit), [], {}, {}, E.Insert({}, id));
  }

  /** A full-name loop over `names`. */
  method AddNamedCreators(software: K.Software, src: K.Source, lit: Literal, names: seq<string>, blanks: BlankNodes,
                          ghost sd: E.SourceData, ghost st: Draw)
    requires src.Build() == sd && st == (software.creators, blanks.next)
    modifies software`creators, blanks
    ensures (software.creators, blanks.next) == WithNamed(st, names, sd, lit)
  {
    ghost var ps := NamedCreators(names, sd, lit, st.1);
    var i := 0;
    while i < |names|
      invariant 0 <= i <= |names|
      invariant software.creators == E.AddedAll(st.0, ps[..i], E.Insert)
      invariant blanks.next == st.1 + i
    {
      ghost var bi := blanks.next;
      var p := NewNamedCreator(src, lit, names[i], blanks);
      E.AddedAllNext(st.0, ps, E.Insert, i);
      NamedCreatorsAt(names, sd, lit, st.1, i, bi);
      software.AddCreator(p);
      i := i + 1;
    }
    assert ps[..|names|] == ps;
  }

  /** An identifier loop over `xs`, each identifier minted from `ns + x`. */
  method AddIdCreators(software: K.Software, src: K.Source, lit: Literal, ns: string, xs: seq<string>, blanks: BlankNodes, mint: Minter,
                       ghost sd: E.SourceData, ghost st: Draw)
    requires src.Build() == sd && st == (software.creators, blanks.next)
    modifies software`creators, blanks
    ensures (software.creators, blanks.next) == WithIds(st, ns, xs, sd, lit, mint)
  {
    ghost var ps := IdCreators(ns, xs, sd, lit, st.1, mint);
    var i := 0;
    while i < |xs|
      invariant 0 <= i <= |xs|
      invariant software.creators == E.AddedAll(st.0, ps[..i], E.Insert)
      invariant blanks.next == st.1 + 2 * i
    {
      ghost var bi := blanks.next;
      var p := NewIdCreator(src, lit, ns + xs[i], blanks, mint);
      E.AddedAllNext(st.0, ps, E.Insert, i);
      IdCreatorsAt(ns, xs, sd, lit, st.1, mint, i, bi);
      software.AddCreator(p);
      i := i + 1;
    }
    assert ps[..|xs|] == ps;
  }

  /** A structure loop over `xs`. */
  method AddOrgCreators(software: K.Software, src: K.Source, lit: Literal, xs: seq<string>, blanks: BlankNodes, mint: Minter,
                        ghost sd: E.SourceData, ghost st: Draw)
    requires src.Build() == sd && st == (software.creators, blanks.next)
    modifies software`creators, blanks
    ensures (software.creators, blanks.next) == WithOrgs(st, xs, sd, lit, mint)
  {
    ghost var os := OrgCreators(xs, sd, lit, st.1, mint);
    var i := 0;
    while i < |xs|
      invariant 0 <= i <= |xs|
      invariant software.creators == E.AddedAll(st.0, os[..i], E.Insert)
      invariant blanks.next == st.1 + 3 * i
    {
      ghost var bi := blanks.next;
      var o := NewOrgCreator(src, lit, xs[i], blanks, mint, sd);
      E.AddedAllNext(st.0, os, E.Insert, i);
      OrgCreatorsAt(xs, sd, lit, st.1, mint, i, bi);
      software.AddCreator(o);
      i := i + 1;
    }
    assert os[..|xs|] == os;
  }

  /** The creators after the four person loops: full names, idHal, ORCID, Google Scholar. */
  function PersonCreators(doc: SoftwareDoc, src: E.SourceData, lit: Literal, st: Draw, mint: Minter): (r: Draw)
    ensures r.1 == st.1 + |Items(doc.authFullNames)| + 2 * (|Items(doc.authIdHals)| + |Items(doc.authOrcids)| + |Items(doc.authGscholars)|)
  {
    var named := WithNamed(st, Items(doc.authFullNames), src, lit);
    var idhal := WithIds(named, HAL_AUTHOR_NS, Items(doc.authIdHals), src, lit, mint);
    var orcid := WithIds(idhal, ORCID_NS, Items(doc.authOrcids), src, lit, mint);
    WithIds(orcid, "", Items(doc.authGscholars), src, lit, mint)
  }

  /** The creators after the four organization loops: structure and laboratory, by ROR and by IdRef. */
  function OrgGroupCreators(doc: SoftwareDoc, src: E.SourceData, lit: Literal, st: Draw, mint: Minter): (r: Draw)
    ensures r.1 == st.1 + 3 * (|Items(doc.structRors)| + |Items(doc.structIdrefs)| + |Items(doc.labRors)| + |Items(doc.labIdrefs)|)
  {
    var structRor := WithOrgs(st, Items(doc.structRors), src, lit, mint);
    var structIdref := WithOrgs(structRor, Items(doc.structIdrefs), src, lit, mint);
    var labRor := WithOrgs(structIdref, Items(doc.labRors), src, lit, mint);
    WithOrgs(labRor, Items(doc.labIdrefs), src, lit, mint)
  }

  /** The blanks the creator loops draw: one per full name, two per person identifier, three per structure. */
  function CreatorBlanks(doc: SoftwareDoc): nat
  {
    |Items(doc.authFullNames)|
      + 2 * (|Items(doc.authIdHals)| + |Items(doc.authOrcids)| + |Items(doc.authGscholars)|)
      + 3 * (|Items(doc.structRors)| + |Items(doc.structIdrefs)| + |Items(doc.labRors)| + |Items(doc.labIdrefs)|)
  }

  /**
   * The creators after the eight creator loops in source order, from the
   * creators and blank `st`; they draw exactly `CreatorBlanks` blanks.
   */
  function SoftwareCreators(doc: SoftwareDoc, src: E.SourceData, lit: Literal, st: Draw, mint: Minter): (r: Draw)
    ensures r.1 == st.1 + CreatorBlanks(doc)
  {
    OrgGroupCreators(doc, src, lit, PersonCreators(doc, src, lit, st, mint), mint)
  }

  /** The full-name loop, run only when the field is filled. */
  method NamedGroup(software: K.Software, src: K.Source, lit: Literal, f: Field<seq<string>>, blanks: BlankNodes, ghost sd: E.SourceData, ghost st: Draw)
    requires src.Build() == sd && st == (software.creators, blanks.next)
    modifies software`creators, blanks
    ensures (software.creators, blanks.next) == WithNamed(st, Items(f), sd, lit)
  {
    if Filled(f) {
      AddNamedCreators(software, src, lit, f.value, blanks, sd, st);
    } else {
      assert NamedCreators([], sd, lit, st.1) == [];
    }
  }

  /** An identifier loop, run only when the field is filled. */
  method IdGroup(software: K.Software, src: K.Source, lit: Literal, ns: string, f: Field<seq<string>>, blanks: BlankNodes, mint: Minter, ghost sd: E.SourceData, ghost st: Draw)
    requires src.Build() == sd && st == (software.creators, blanks.next)
    modifies software`creators, blanks
    ensures (software.creators, blanks.next) == WithIds(st, ns, Items(f), sd, lit, mint)
  {
    if Filled(f) {
      AddIdCreators(software, src, lit, ns, f.value, blanks, mint, sd, st);
    } else {
      assert IdCreators(ns, [], sd, lit, st.1, mint) == [];
    }
  }

  /** A structure loop, run only when the field is filled. */
  method OrgGroup(software: K.Software, src: K.Source, lit: Literal, f: Field<seq<string>>, blanks: BlankNodes, mint: Minter, ghost sd: E.SourceData, ghost st: Draw)
    requires src.Build() == sd && st == (software.creators, blanks.next)
    modifies software`creators, blanks
    ensures (software.creators, blanks.next) == WithOrgs(st, Items(f), sd, lit, mint)
  {
    if Filled(f) {
      AddOrgCreators(software, src, lit, f.value, blanks, mint, sd, st);
    } else {
      assert OrgCreators([], sd, lit, st.1, mint) == [];
    }
  }

  /** The four person loops. */
  method AddPersonCreators(software: K.Software, src: K.Source, lit: Literal, doc: SoftwareDoc, blanks: BlankNodes, mint: Minter, ghost sd: E.SourceData, ghost st: Draw)
    requires src.Build() == sd && st == (software.creators, blanks.next)
    modifies software`creators, blanks
    ensures (software.creators, blanks.next) == PersonCreators(doc, sd, lit, st, mint)
  {
    NamedGroup(software, src, lit, doc.authFullNames, blanks, sd, st);
    ghost var st1 := (software.creators, blanks.next);
    IdGroup(software, src, lit, HAL_AUTHOR_NS, doc.authIdHals, blanks, mint, sd, st1);
    ghost var st2 := (software.creators, blanks.next);
    IdGroup(software, src, lit, ORCID_NS, doc.authOrcids, blanks, mint, sd, st2);
    ghost var st3 := (software.creators, blanks.next);
    IdGroup(software, src, lit, "", doc.authGscholars, blanks, mint, sd, st3);
  }

  /** The four organization loops. */
  method AddOrgGroupCreators(software: K.Software, src: K.Source, lit: Literal, doc: SoftwareDoc, blanks: BlankNodes, mint: Minter, ghost sd: E.SourceData, ghost st: Draw)
    requires src.Build() == sd && st == (software.creators, blanks.next)
    modifies software`creators, blanks
    ensures (software.creators, blanks.next) == OrgGroupCreators(doc, sd, lit, st, mint)
  {
    OrgGroup(software, src, lit, doc.structRors, blanks, mint, sd, st);
    ghost var st1 := (software.creators, blanks.next);
    OrgGroup(software, src, lit, doc.structIdrefs, blanks, mint, sd, st1);
    ghost var st2 := (software.creators, blanks.next);
    OrgGroup(software, src, lit, doc.labRors, blanks, mint, sd, st2);
    ghost var st3 := (software.creators, blanks.next);
    OrgGroup(software, src, lit, doc.labIdrefs, blanks, mint, sd, st3);
  }

  /** The eight creator loops of the document loop, in source order. */
  method AddSoftwareCreators(software: K.Software, src: K.Source, lit: Literal, doc: SoftwareDoc, blanks: BlankNodes, mint: Minter, ghost sd: E.SourceData)
    requires src.Build() == sd
    modifies software`creators, blanks
    ensures (software.creators, blanks.next) == SoftwareCreators(doc, sd, lit, (old(software.creators), old(blanks.next)), mint)
  {
    AddPersonCreators(software, src, lit, doc, blanks, mint, sd, (software.creators, blanks.next));
    AddOrgGroupCreators(software, src, lit, doc, blanks, mint, sd, (software.creators, blanks.next));
  }

  // ---------------------------------------------------------------------
  // One document

  /** The blanks one document draws: the Software's URI, then its creators. */
  function SoftwareBlanks(doc: SoftwareDoc): nat
  {
    1 + CreatorBlanks(doc)
  }

  /** A Software retrieved by the request `lit`. */
  function WithRetrievedFrom(e: E.Entity, lit: Literal): E.Entity
    requires e.Software?
  {
    E.Software(e.uri, e.comments, e.labelText, e.source, Some(lit), e.related, e.abstractText, e.license,
               e.keywords, e.created, e.modified, e.version, e.referencedBy, e.identifiers, e.creators,
               e.languages, e.platforms, e.codeRepositories, e.availableAt, e.publication, e.rights)
  }

  /** A Software with the creators `creators`. */
  function WithCreators(e: E.Entity, creators: set<E.Entity>): E.Entity
    requires e.Software?
  {
    E.Software(e.uri, e.comments, e.labelText, e.source, e.retrievedFrom, e.related, e.abstractText, e.license,
               e.keywords, e.created, e.modified, e.version, e.referencedBy, e.identifiers, creators,
               e.languages, e.platforms, e.codeRepositories, e.availableAt, e.publication, e.rights)
  }

  /** A Software after the titles, abstracts, keywords, repositories, languages and platforms of `doc`. */
  function WithTexts(e: E.Entity, doc: SoftwareDoc): E.Entity
    requires e.Software?
  {
    E.Software(e.uri, e.comments, LastOr(Items(doc.titles), e.labelText), e.source, e.retrievedFrom, e.related,
               if Filled(doc.abstracts) then Some(LastOr(doc.abstracts.value, "")) else e.abstractText,
               e.license, e.keywords + ItemSet(Items(doc.keywords)), e.created, e.modified, e.version,
               e.referencedBy, e.identifiers, e.creators,
               e.languages + ItemSet(Items(doc.languages)), e.platforms + ItemSet(Items(doc.platforms)),
               e.codeRepositories + ItemSet(Items(doc.repositories)), e.availableAt, e.publication, e.rights)
  }

  /** A Software after the dates and the rights of `doc`. */
  function WithDates(e: E.Entity, doc: SoftwareDoc): E.Entity
    requires e.Software?
  {
    E.Software(e.uri, e.comments, e.labelText, e.source, e.retrievedFrom, e.related, e.abstractText, e.license,
               e.keywords, e.created,
               if Given(doc.modified) then Some(doc.modified.value) else e.modified,
               e.version, e.referencedBy, e.identifiers, e.creators, e.languages, e.platforms, e.codeRepositories,
               e.availableAt + (if Filled(doc.released) then {doc.released.value} else {}),
               if Filled(doc.published) then Some(doc.published.value) else e.publication,
               if doc.openAccess == Present(true) then Some(OPEN_ACCESS) else e.rights)
  }

  /**
   * The Software built from `doc` with blanks drawn from `b` on: a fresh
   * Software on the URI minted from the HAL namespace and the `halId_s`,
   * through the builder steps in source order.
   */
  function SoftwareEntity(doc: SoftwareDoc, src: E.SourceData, lit: Literal, b: nat, mint: Minter): E.Entity
    requires Given(doc.halId)
  {
    var uri := mint(HAL_NS + doc.halId.value, b);
    var persons := PersonCreators(doc, src, lit, ({}, b + 1), mint);
    WithCreators(WithDates(WithCreators(WithTexts(WithRetrievedFrom(E.NewSoftware(src, uri), lit), doc), persons.0), doc),
                 OrgGroupCreators(doc, src, lit, persons, mint).0)
  }

  /**
   * The Software of a document: the last title is the label (the URI's
   * text without one), an abstract only when one is given, list fields as
   * sets, the creators of the eight creator loops, and rights only for an
   * open-access document, always "Open Access".
   */
  lemma SoftwareEntityFields(doc: SoftwareDoc, src: E.SourceData, lit: Literal, b: nat, mint: Minter)
    requires Given(doc.halId)
    ensures var s := SoftwareEntity(doc, src, lit, b, mint);
      && s.Software? && s.uri == mint(HAL_NS + doc.halId.value, b)
      && s.source == src && s.retrievedFrom == Some(lit)
      && s.labelText == LastOr(Items(doc.titles), Text(s.uri))
      && (s.abstractText.Some? <==> Filled(doc.abstracts))
      && (forall k :: k in s.keywords <==> k in Items(doc.keywords))
      && (forall l :: l in s.languages <==> l in Items(doc.languages))
      && (forall r :: r in s.codeRepositories <==> r in Items(doc.repositories))
      && s.creators == SoftwareCreators(doc, src, lit, ({}, b + 1), mint).0
      && (s.rights.Some? <==> doc.openAccess == Present(true))
      && (s.rights.Some? ==> s.rights == Some(OPEN_ACCESS))
  {
  }

  /** The texts and list fields of the document, in source order. */
  method FillSoftware(software: K.Software, doc: SoftwareDoc, ghost e: E.Entity)
    requires software.Build() == e
    modifies software.thing`labelText, software.resource`abstractText, software.resource`keywords
    modifies software`codeRepositories, software`languages, software`platforms
    ensures software.Build() == WithTexts(e, doc)
  {
    SetLabels(software.thing, doc.titles);
    SetAbstracts(software.resource, doc.abstracts);
    AddKeywords(software.resource, doc.keywords);
    AddRepositories(software, doc.repositories);
    AddLanguages(software, doc.languages);
    AddPlatforms(software, doc.platforms);
  }

  /** The dates and the rights of the document. */
  method FillDates(software: K.Software, doc: SoftwareDoc, ghost e: E.Entity)
    requires software.Build() == e
    modifies software.resource`modified, software`availableAt, software`publication, software`rights
    ensures software.Build() == WithDates(e, doc)
  {
    if Given(doc.modified) {
      software.resource.SetModified(doc.modified.value);
    }
    if Filled(doc.released) {
      software.AddAvailableAt(doc.released.value);
    }
    if Filled(doc.published) {
      software.SetPublication(doc.published.value);
    }
    if doc.openAccess == Present(true) {
      software.SetRights(OPEN_ACCESS);
    }
  }

  /** The four person loops, on the Software built as `e`. */
  method PersonStep(software: K.Software, src: K.Source, lit: Literal, doc: SoftwareDoc, blanks: BlankNodes, mint: Minter,
                    ghost sd: E.SourceData, ghost e: E.Entity)
    requires src.Build() == sd && software.Build() == e
    modifies software`creators, blanks
    ensures var persons := PersonCreators(doc, sd, lit, (e.creators, old(blanks.next)), mint);
      software.Build() == WithCreators(e, persons.0) && blanks.next == persons.1
  {
    AddPersonCreators(software, src, lit, doc, blanks, mint, sd, (software.creators, blanks.next));
  }

  /** The four organization loops, on the Software built as `e`. */
  method OrgGroupStep(software: K.Software, src: K.Source, lit: Literal, doc: SoftwareDoc, blanks: BlankNodes, mint: Minter,
                      ghost sd: E.SourceData, ghost st: Draw, ghost e: E.Entity)
    requires src.Build() == sd && software.Build() == e && st == (e.creators, blanks.next)
    modifies software`creators, blanks
    ensures var orgs := OrgGroupCreators(doc, sd, lit, st, mint);
      software.Build() == WithCreators(e, orgs.0) && blanks.next == orgs.1
  {
    AddOrgGroupCreators(software, src, lit, doc, blanks, mint, sd, st);
  }

  /** The creator loops and the dates, in source order: persons, dates, organizations. */
  method AddCreatorsAndDates(software: K.Software, src: K.Source, lit: Literal, doc: SoftwareDoc, blanks: BlankNodes, mint: Minter,
                             ghost sd: E.SourceData, ghost e: E.Entity)
    requires src.Build() == sd && software.Build() == e
    modifies software`creators, software.resource`modified, software`availableAt, software`publication, software`rights, blanks
    ensures var persons := PersonCreators(doc, sd, lit, (e.creators, old(blanks.next)), mint);
      software.Build() == WithCreators(WithDates(WithCreators(e, persons.0), doc), OrgGroupCreators(doc, sd, lit, persons, mint).0)
    ensures blanks.next == old(blanks.next) + CreatorBlanks(doc)
  {
    ghost var persons := PersonCreators(doc, sd, lit, (e.creators, blanks.next), mint);
    PersonStep(software, src, lit, doc, blanks, mint, sd, e);
    ghost var e2 := WithCreators(e, persons.0);
    FillDates(software, doc, e2);
    ghost var e3 := WithDates(e2, doc);
    OrgGroupStep(software, src, lit, doc, blanks, mint, sd, persons, e3);
  }

  /**
   * `Software.Builder(source, create_uri(HAL + halId))` with
   * `set_retrieved_from` and every field of the document.
   */
  method NewSoftwareFrom(src: K.Source, lit: Literal, doc: SoftwareDoc, blanks: BlankNodes, mint: Minter, ghost sd: E.SourceData)
    returns (software: K.Software)
    requires Given(doc.halId) && src.Build() == sd
    modifies blanks
    ensures fresh(software) && fresh(software.thing) && fresh(software.resource)
    ensures software.Build() == SoftwareEntity(doc, sd, lit, old(blanks.next), mint)
    ensures blanks.next == old(blanks.next) + SoftwareBlanks(doc)
  {
    var b := blanks.Fresh();
    var uri := mint(HAL_NS + doc.halId.value, b);
    software := new K.Software(src, uri);
    ghost var e0 := E.NewSoftware(sd, uri);
    assert software.Build() == e0;
    software.thing.SetRetrievedFrom(lit);
    ghost var e1 := WithRetrievedFrom(e0, lit);
    assert software.Build() == e1;
    FillSoftware(software, doc, e1);
    ghost var e2 := WithTexts(e1, doc);
    TextsUncreated(doc, sd, lit, uri, e2);
    ghost var persons := PersonCreators(doc, sd, lit, ({}, b + 1), mint);
    SoftwareEntitySteps(doc, sd, lit, b, mint, e2, persons);
    AddCreatorsAndDates(software, src, lit, doc, blanks, mint, sd, e2);
  }

  /** A fresh Software has no creators before the creator loops. */
  lemma TextsUncreated(doc: SoftwareDoc, sd: E.SourceData, lit: Literal, uri: Term, e: E.Entity)
    requires e == WithTexts(WithRetrievedFrom(E.NewSoftware(sd, uri), lit), doc)
    ensures e.Software? && e.creators == {}
  {
  }

  /** The Software of a document is its texts, then the creator loops and the dates. */
  lemma SoftwareEntitySteps(doc: SoftwareDoc, sd: E.SourceData, lit: Literal, b: nat, mint: Minter, e: E.Entity, persons: Draw)
    requires Given(doc.halId)
    requires e == WithTexts(WithRetrievedFrom(E.NewSoftware(sd, mint(HAL_NS + doc.halId.value, b)), lit), doc)
    requires persons == PersonCreators(doc, sd, lit, ({}, b + 1), mint)
    ensures SoftwareEntity(doc, sd, lit, b, mint) == WithCreators(WithDates(WithCreators(e, persons.0), doc), OrgGroupCreators(doc, sd, lit, persons, mint).0)
  {
  }




  // ---------------------------------------------------------------------
  // The document loop

  /** The Software one document yields: one with a `halId_s`, none without. */
  function SoftwareYield(doc: SoftwareDoc, src: E.SourceData, lit: Literal, b: nat, mint: Minter): seq<E.Entity>
  {
    if Given(doc.halId) then [SoftwareEntity(doc, src, lit, b, mint)] else []
  }

  /**
   * What the turn of one document yields: nothing, and a raise, without a
   * `halId_s`; otherwise its Software, the blanks it draws, and a raise
   * after the projection when the document has no `title_s` key.
   */
  function SoftwareTurn(doc: SoftwareDoc, src: E.SourceData, lit: Literal, b: nat, mint: Minter): (turn: (seq<E.Entity>, nat, bool))
    ensures !Given(doc.halId) ==> turn == ([], 0, false)
    ensures turn.2 <==> Given(doc.halId) && doc.titles != Absent
  {
    (SoftwareYield(doc, src, lit, b, mint), if Given(doc.halId) then SoftwareBlanks(doc) else 0, Given(doc.halId) && doc.titles != Absent)
  }

  /** A document with a `halId_s` yields exactly its Software. */
  lemma SoftwareTurnGiven(doc: SoftwareDoc, src: E.SourceData, lit: Literal, b: nat, mint: Minter)
    requires Given(doc.halId)
    ensures SoftwareTurn(doc, src, lit, b, mint) == ([SoftwareEntity(doc, src, lit, b, mint)], SoftwareBlanks(doc), doc.titles != Absent)
  {
  }

  /** The turn of the document loop of a page requested as `lit`. */
  function SoftwareStep(src: E.SourceData, lit: Literal, mint: Minter): (SoftwareDoc, nat) -> (seq<E.Entity>, nat, bool)
  {
    (doc, b) => SoftwareTurn(doc, src, lit, b, mint)
  }

  /** The Software of a document with a `halId_s` is built and projected into the graph. */
  method ProjectSoftware(doc: SoftwareDoc, src: K.Source, lit: Literal, g: Graph, blanks: BlankNodes, mint: Minter,
                         ghost sd: E.SourceData, ghost b: nat)
    requires src.Build() == sd && Given(doc.halId) && blanks.next == b
    modifies g`triples, blanks
    ensures g.triples == old(g.triples) + Projected([SoftwareEntity(doc, sd, lit, b, mint)], E.Triples)
    ensures blanks.next == b + SoftwareBlanks(doc)
  {
    var software := NewSoftwareFrom(src, lit, doc, blanks, mint, sd);
    ProjectBuilt(software, g, SoftwareEntity(doc, sd, lit, b, mint));
  }

  /** `software.to_rdf(graph)` for the Software built as `e`. */
  method ProjectBuilt(software: K.Software, g: Graph, ghost e: E.Entity)
    requires software.Build() == e
    modifies g`triples
    ensures g.triples == old(g.triples) + Projected([e], E.Triples)
  {
    software.ToRdf(g);
    ProjectedOne(e, E.Triples);
  }

  /**
   * The body of the document loop: the Software of a document with a
   * `halId_s` is built and projected into the graph; `ok` is false when
   * the turn raised.
   */
  method SoftwareToRdf(doc: SoftwareDoc, src: K.Source, lit: Literal, g: Graph, blanks: BlankNodes, mint: Minter, ghost sd: E.SourceData)
    returns (ok: bool)
    requires src.Build() == sd
    modifies g`triples, blanks
    ensures var turn := SoftwareTurn(doc, sd, lit, old(blanks.next), mint);
      && g.triples == old(g.triples) + Projected(turn.0, E.Triples)
      && blanks.next == old(blanks.next) + turn.1
      && ok == turn.2
  {
    if !Given(doc.halId) {
      assert Projected([], E.Triples) == {};
      assert old(g.triples) + {} == old(g.triples);
      return false;
    }
    SoftwareTurnGiven(doc, sd, lit, blanks.next, mint);
    ProjectSoftware(doc, src, lit, g, blanks, mint, sd, blanks.next);
    ok := doc.titles != Absent;
  }

  /** `for software in docs: ...`, ended by the first turn that raises. */
  method SoftwarePageToRdf(docs: seq<SoftwareDoc>, src: K.Source, lit: Literal, g: Graph, blanks: BlankNodes, mint: Minter, ghost sd: E.SourceData)
    returns (ok: bool)
    requires src.Build() == sd
    modifies g`triples, blanks
    ensures var run := Attempts(docs, old(blanks.next), SoftwareStep(sd, lit, mint));
      && g.triples == old(g.triples) + Projected(run.0, E.Triples)
      && blanks.next == old(blanks.next) + run.1
      && ok == run.2
  {
    ghost var step := SoftwareStep(sd, lit, mint);
    ghost var b0 := blanks.next;
    ok := true;
    var i := 0;
    while ok && i < |docs|
      invariant 0 <= i <= |docs|
      invariant g.triples == old(g.triples) + Projected(Attempts(docs[..i], b0, step).0, E.Triples)
      invariant blanks.next == b0 + Attempts(docs[..i], b0, step).1
      invariant ok == Attempts(docs[..i], b0, step).2
    {
      ghost var before, bi := g.triples, blanks.next;
      ok := SoftwareToRdf(docs[i], src, lit, g, blanks, mint, sd);
      assert step(docs[i], bi) == SoftwareTurn(docs[i], sd, lit, bi, mint);
      AttemptsNext(docs, i, b0, bi, step, E.Triples, old(g.triples), before, g.triples);
      i := i + 1;
    }
    if ok {
      assert docs[..i] == docs;
    } else {
      AttemptsStopped(docs, i, b0, step);
    }
  }

  // ---------------------------------------------------------------------
  // The paging loop

  /** A page the loop processes: the request it answered and its response. */
  type Visit = (string, Page<SoftwareDoc>)

  /** One more page: its document loop, each Software retrieved from the page's request. */
  function PageStep(src: E.SourceData, mint: Minter): (Visit, nat) -> (seq<E.Entity>, nat, bool)
  {
    (v: Visit, b: nat) => Attempts(v.1.docs, b, SoftwareStep(src, Plain(v.0), mint))
  }

  /** The pages processed: page `k` answered the request for page `k`, through the cache. */
  function SoftwareVisits(fetched: seq<Page<SoftwareDoc>>): (visits: seq<Visit>)
    ensures |visits| == |fetched|
  {
    if fetched == [] then []
    else SoftwareVisits(fetched[..|fetched| - 1]) + [(SoftwareUrl(|fetched| - 1), fetched[|fetched| - 1])]
  }

  /** Page `k` is processed with the request for page `k` and the `k`-th response. */
  lemma {:induction false} SoftwareVisitsAt(fetched: seq<Page<SoftwareDoc>>, k: nat)
    requires k < |fetched|
    ensures SoftwareVisits(fetched)[k] == (SoftwareUrl(k), fetched[k])
  {
    var n := |fetched| - 1;
    if k < n {
      SoftwareVisitsAt(fetched[..n], k);
    }
  }

  /** What the harvest yields from blank `b` on: the Software of every page in turn, up to the first raise. */
  function SoftwareHarvest(fetched: seq<Page<SoftwareDoc>>, src: E.SourceData, b: nat, mint: Minter): (seq<E.Entity>, nat, bool)
  {
    Attempts(SoftwareVisits(fetched), b, PageStep(src, mint))
  }

  /** Nothing fetched, nothing harvested. */
  lemma HarvestNone(fetched: seq<Page<SoftwareDoc>>, src: E.SourceData, b: nat, mint: Minter)
    requires fetched == []
    ensures SoftwareHarvest(fetched, src, b, mint) == ([], 0, true)
  {
  }

  /** Recording page `page` extends the visits by its request and response. */
  lemma {:induction false} SoftwareVisitsNext(fetched: seq<Page<SoftwareDoc>>, page: nat, result: Page<SoftwareDoc>)
    requires |fetched| == page
    ensures SoftwareVisits(fetched + [result]) == SoftwareVisits(fetched) + [(SoftwareUrl(page), result)]
  {
    var longer := fetched + [result];
    var n := |longer| - 1;
    assert longer[..n] == fetched && longer[n] == result;
    assert SoftwareVisits(longer) == SoftwareVisits(longer[..n]) + [(SoftwareUrl(n), longer[n])];
    assert n == page;
  }

  /**
   * One turn of the paging loop: the page for `page` is cache-or-fetched,
   * which extends the run of fetches by one request.
   */
  method FetchSoftwarePage(cache: CacheDir<Page<SoftwareDoc>>, api: Endpoint<Page<SoftwareDoc>>, page: nat,
                           ghost files: map<string, Page<SoftwareDoc>>, ghost log: seq<string>,
                           ghost run: (seq<Page<SoftwareDoc>>, map<string, Page<SoftwareDoc>>, seq<string>))
    returns (url: string, result: Page<SoftwareDoc>, ghost nextRun: (seq<Page<SoftwareDoc>>, map<string, Page<SoftwareDoc>>, seq<string>))
    requires run == cache.FetchAll(files, SoftwareUrls(page), api.respond)
    requires cache.files == run.1 && api.requests == log + run.2
    modifies cache`files, api`requests
    ensures url == SoftwareUrl(page)
    ensures nextRun == cache.FetchAll(files, SoftwareUrls(page + 1), api.respond)
    ensures cache.files == nextRun.1 && api.requests == log + nextRun.2
    ensures nextRun.0 == run.0 + [result]
  {
    url := SoftwareUrl(page);
    cache.FetchAllNext(files, SoftwareUrls(page), url, api.respond);
    LogAppend(log, run.2, cache.Missed(run.1, url));
    result := cache.Fetch(url, api);
    nextRun := cache.FetchAll(files, SoftwareUrls(page + 1), api.respond);
  }

  /**
   * The other half of a turn: the Software of the page fetched by `url`
   * goes into the graph, from the blank the earlier pages left on; `ok`
   * is false when a document raised.
   */
  method HarvestSoftwarePage(url: string, result: Page<SoftwareDoc>, src: K.Source, g: Graph, blanks: BlankNodes, mint: Minter,
                             ghost sd: E.SourceData, ghost done: seq<Visit>, ghost b0: nat, ghost base: set<Triple>)
    returns (ok: bool)
    requires src.Build() == sd && Attempts(done, b0, PageStep(sd, mint)).2
    requires g.triples == base + Projected(Attempts(done, b0, PageStep(sd, mint)).0, E.Triples)
    requires blanks.next == b0 + Attempts(done, b0, PageStep(sd, mint)).1
    modifies g`triples, blanks
    ensures g.triples == base + Projected(Attempts(done + [(url, result)], b0, PageStep(sd, mint)).0, E.Triples)
    ensures blanks.next == b0 + Attempts(done + [(url, result)], b0, PageStep(sd, mint)).1
    ensures ok == Attempts(done + [(url, result)], b0, PageStep(sd, mint)).2
  {
    ghost var before, bp := g.triples, blanks.next;
    ok := SoftwarePageToRdf(result.docs, src, Plain(url), g, blanks, mint, sd);
    AttemptsGrow(done, (url, result), b0, bp, PageStep(sd, mint), E.Triples, base, before, g.triples);
  }

  /**
   * A whole turn of the paging loop: page `pages` is cache-or-fetched and
   * its Software go into the graph; the loop's invariants carry over to
   * the next page.
   */
  method SoftwarePageTurn(cache: CacheDir<Page<SoftwareDoc>>, api: Endpoint<Page<SoftwareDoc>>, src: K.Source, g: Graph, blanks: BlankNodes,
                          mint: Minter, pages: nat, ghost sd: E.SourceData, ghost files: map<string, Page<SoftwareDoc>>, ghost log: seq<string>,
                          ghost b0: nat, ghost base: set<Triple>, ghost run: (seq<Page<SoftwareDoc>>, map<string, Page<SoftwareDoc>>, seq<string>))
    returns (ok: bool, ghost nextRun: (seq<Page<SoftwareDoc>>, map<string, Page<SoftwareDoc>>, seq<string>))
    requires src.Build() == sd
    requires run == cache.FetchAll(files, SoftwareUrls(pages), api.respond)
    requires cache.files == run.1 && api.requests == log + run.2
    requires g.triples == base + Projected(SoftwareHarvest(run.0, sd, b0, mint).0, E.Triples)
    requires blanks.next == b0 + SoftwareHarvest(run.0, sd, b0, mint).1
    requires SoftwareHarvest(run.0, sd, b0, mint).2
    modifies api`requests, cache`files, g`triples, blanks
    ensures nextRun == cache.FetchAll(files, SoftwareUrls(pages + 1), api.respond)
    ensures cache.files == nextRun.1 && api.requests == log + nextRun.2
    ensures g.triples == base + Projected(SoftwareHarvest(nextRun.0, sd, b0, mint).0, E.Triples)
    ensures blanks.next == b0 + SoftwareHarvest(nextRun.0, sd, b0, mint).1
    ensures ok == SoftwareHarvest(nextRun.0, sd, b0, mint).2
    ensures nextRun.0[..pages] == run.0
  {
    var url, result;
    url, result, nextRun := FetchSoftwarePage(cache, api, pages, files, log, run);
    ok := HarvestSoftwarePage(url, result, src, g, blanks, mint, sd, SoftwareVisits(run.0), b0, base);
    SoftwareVisitsNext(run.0, pages, result);
    assert nextRun.0[..pages] == run.0;
  }

  /**
   * The paging loop of `process_hal_software`: while `page * 100 <
   * numFound` the page is cache-or-fetched and its Software go into the
   * graph, until the pages run out or a document raises; `pages` counts
   * the pages fetched, the last of them the one that raised.
   */
  method SoftwarePages(api: Endpoint<Page<SoftwareDoc>>, cache: CacheDir<Page<SoftwareDoc>>, src: K.Source, g: Graph, blanks: BlankNodes,
                       mint: Minter, numFound: nat, ghost sd: E.SourceData, ghost log: seq<string>,
                       ghost files0: map<string, Page<SoftwareDoc>>, ghost b0: nat, ghost base: set<Triple>)
    returns (ok: bool, pages: nat, ghost run: (seq<Page<SoftwareDoc>>, map<string, Page<SoftwareDoc>>, seq<string>))
    requires src.Build() == sd && api.requests == log
    requires cache.files == files0 && blanks.next == b0 && g.triples == base
    modifies api`requests, cache`files, g`triples, blanks
    ensures pages <= PageCount(numFound) && (ok ==> pages == PageCount(numFound)) && (!ok ==> pages > 0)
    ensures run == cache.FetchAll(files0, SoftwareUrls(pages), api.respond)
    ensures cache.files == run.1 && api.requests == log + run.2
    ensures g.triples == base + Projected(SoftwareHarvest(run.0, sd, b0, mint).0, E.Triples)
    ensures blanks.next == b0 + SoftwareHarvest(run.0, sd, b0, mint).1
    ensures ok == SoftwareHarvest(run.0, sd, b0, mint).2
    ensures pages > 0 ==> SoftwareHarvest(run.0[..pages - 1], sd, b0, mint).2
  {
    ok := true;
    pages := 0;
    run := cache.FetchAll(files0, [], api.respond);
    HarvestNone(run.0, sd, b0, mint);
    ProjectedNone(SoftwareHarvest(run.0, sd, b0, mint).0, E.Triples, g.triples);
    while ok && pages * PAGE_SIZE < numFound
      invariant pages <= PageCount(numFound) && (!ok ==> pages > 0)
      invariant run == cache.FetchAll(files0, SoftwareUrls(pages), api.respond)
      invariant cache.files == run.1 && api.requests == log + run.2
      invariant g.triples == base + Projected(SoftwareHarvest(run.0, sd, b0, mint).0, E.Triples)
      invariant blanks.next == b0 + SoftwareHarvest(run.0, sd, b0, mint).1
      invariant ok == SoftwareHarvest(run.0, sd, b0, mint).2
      invariant pages > 0 ==> SoftwareHarvest(run.0[..pages - 1], sd, b0, mint).2
      modifies api`requests, cache`files, g`triples, blanks
    {
      PageCountIff(numFound, pages);
      ok, run := SoftwarePageTurn(cache, api, src, g, blanks, mint, pages, sd, files0, log, b0, base, run);
      pages := pages + 1;
    }
    PageCountIff(numFound, pages);
  }

  /**
   * `process_hal_software`: a first request, made directly, gives
   * `numFound`; then the paging loop harvests the Software of every page.
   */
  method ProcessHalSoftware(api: Endpoint<Page<SoftwareDoc>>, cache: CacheDir<Page<SoftwareDoc>>, refreshed: string, retrieved: string,
                            g: Graph, blanks: BlankNodes, mint: Minter)
    returns (ok: bool, pages: nat)
    modifies api`requests, cache`files, g`triples, blanks
    ensures var n := PageCount(api.respond(SOFTWARE_FIRST_URL).numFound);
      && pages <= n && (ok ==> pages == n) && (!ok ==> pages > 0)
    ensures var run := cache.FetchAll(old(cache.files), SoftwareUrls(pages), api.respond);
      var harvest := SoftwareHarvest(run.0, E.NewSource(SOFTWARE_API, refreshed, retrieved), old(blanks.next), mint);
      && api.requests == old(api.requests) + [SOFTWARE_FIRST_URL] + run.2
      && cache.files == run.1
      && g.triples == old(g.triples) + Projected(harvest.0, E.Triples)
      && blanks.next == old(blanks.next) + harvest.1
      && ok == harvest.2
      && (pages > 0 ==> SoftwareHarvest(run.0[..pages - 1], E.NewSource(SOFTWARE_API, refreshed, retrieved), old(blanks.next), mint).2)
  {
    var src := new K.Source(SOFTWARE_API, refreshed, retrieved);
    var first := api.Get(SOFTWARE_FIRST_URL);
    ghost var run;
    ok, pages, run := SoftwarePages(api, cache, src, g, blanks, mint, first.numFound, src.Build(), api.requests,
                                     cache.files, blanks.next, g.triples);
  }
}
