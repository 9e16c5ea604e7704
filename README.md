# ResearchTeamProjectFinder harvesters, modelled in Dafny

ResearchTeamProjectFinder builds a knowledge graph of research teams,
their people, software and papers. Several harvesters feed it. Each one
reads a remote source (the HAL search API and SPARQL endpoint, DBLP's
SPARQL endpoint, the GitHub user search, the Papers-with-Code dump),
builds entity objects (`Person`, `Organization`, `Software`, `Paper`,
`Repository`, `UniqueIdentifier`, `CitationCount`, `Source`) and projects
them into rdflib graphs through `to_rdf`. The graphs are then written to
Turtle files when they are not empty.

This project models that core:

- `wrappers.dfy`: `Option` and `Result`.
- `numerals.dfy`: `str(n)` and `int(s)` on decimal text.
- `rdf.dfy`: terms, the vocabulary IRIs, an rdflib `Graph` as a class
  over a set of triples, blank-node allocation as a counter, and the files
  graphs are written to.
- `utilities.dfy`: `sanitize_uri`, `sanitize` and `create_uri`, with the
  regular expressions spelled out as greedy, backtracking scans.
- `entities.dfy`: the state of each entity once built, as a value; the
  `__eq__` of each class; Python set insertion under that `__eq__`; and
  the exact set of triples `to_rdf` adds.
- `knowledge.dfy`: one class per entity class of `kg/knowledge.py`, with
  its setters and an imperative `to_rdf` proved to add exactly the
  triples of the value it builds.
- `fetch.dfy`: a remote service as an oracle with a request log, and the
  cache-or-fetch idiom over a directory of JSON files.
- `hal.dfy`, `hal_authors.dfy`, `hal_software.dfy`,
  `hal_organizations.dfy`: the three HAL harvesters and the writing of
  the HAL graphs.
- `dblp.dfy`: the most-cited-articles-per-year DBLP connector.
- `github.dfy`: the GitHub person search.
- `paper_with_code.dfy`: the Papers-with-Code connector.

Each harvester is an imperative method over the graph, the blank-node
counter, the cache directory and the request log. It is proved against a
specification function: the triples it adds are exactly the projection of
the entities a pure function of its inputs builds, and the requests it
sends and the cache files it writes are exactly those of a pure run of
cache-or-fetch. Lemmas then state what those entities are: which
documents or rows yield an entity, under which URI, with which
identifiers and labels, and which triples therefore reach the graph.

Where the project's design description and the code differ, the model
follows the code:

- the author harvest fetches, through the cache, one page past the last
  page it processes, and the software harvest requests page 0 twice
  (once directly, once through the cache under a differently ordered
  URL), so neither makes exactly one request per page;
- a `Person` with no first or last name still emits `foaf:firstName`
  and `foaf:lastName`, with rdflib's text of `Literal(None)`, "None";
- `to_rdf` keeps no visited set; entities here are values, so a cycle of
  related works cannot be built at all;
- the Papers-with-Code guard against an empty or missing paper URI never
  fires: a null paper URL, a paper URL without a sanitized form or a null
  repository URL raises a `TypeError` inside `create_uri` instead.

## Model

| member | source | states |
|---|---|---|
| Numerals.NatText | src/python/dblp_source/dblp.py:29 | `str(n)` of a natural number is a non-empty run of decimal digits with no leading zero |
| Numerals.IntText | src/python/dblp_source/dblp.py:29 | `str(n)` starts with a minus sign exactly when `n` is negative |
| Numerals.ParseInt | src/python/dblp_source/dblp.py:117 | `int(s)` succeeds exactly on an optional sign followed by a non-empty run of digits; anything else is a ValueError |
| Numerals.DigitsOfNatText | src/python/dblp_source/dblp.py:117 | the digits `str` writes for `n` have the value `n` |
| Numerals.ParseIntText | src/python/dblp_source/dblp.py:117 | `int(str(n)) == n` for every integer |
| Numerals.ParseNatText | src/python/dblp_source/dblp.py:117 | `int(str(n)) == n` for a natural number |
| Numerals.ParseNegativeText | src/python/dblp_source/dblp.py:117 | a minus sign before `str(m)` reads back as `-m` |
| Numerals.IntTextInjective | src/python/dblp_source/dblp.py:29 | different numbers have different decimal texts |
| Utilities.Run | src/python/util/utilities.py:57-58 | a greedy `[...]*` run: every character taken is in the class, and the next one is not |
| Utilities.SchemePrefix | src/python/util/utilities.py:57 | a leading `https?://` has length 7 or 8, or there is none |
| Utilities.DomainMatch | src/python/util/utilities.py:57 | a match of `https?://[\w./]+` at the start needs a scheme there |
| Utilities.LastSplit | src/python/util/utilities.py:57 | backtracking out of the first greedy group settles on a split after which the rest matches, or reports that none exists |
| Utilities.LastSplitIsLast | src/python/util/utilities.py:57 | the split chosen is the last one possible (greediness) |
| Utilities.RepeatedDomainAt | src/python/util/utilities.py:57 | a match of the repeated-domain pattern has two scheme prefixes, the second at the offset of its second group |
| Utilities.RemoveRepeatedDomains | src/python/util/utilities.py:61 | the rewrite that keeps the second group of each match never lengthens the text |
| Utilities.SchemeCountAt | src/python/util/utilities.py:57 | a text with a scheme prefix at some offset counts at least one scheme |
| Utilities.RepeatedDomainNeedsTwo | src/python/util/utilities.py:57 | a match of the repeated-domain pattern needs two `http://`/`https://` occurrences |
| Utilities.RemoveRepeatedDomainsNoOp | src/python/util/utilities.py:61 | the rewrite is the identity on a text with fewer than two scheme occurrences |
| Utilities.SkipRun | src/python/util/utilities.py:58 | a greedy run from an offset ends at the first character outside the class |
| Utilities.SkipGroup | src/python/util/utilities.py:58 | an optional group of the URI pattern consumes no whitespace |
| Utilities.UriMatchEnd | src/python/util/utilities.py:58 | the match of the standard URI pattern, when there is one, is a whitespace-free prefix |
| Utilities.NoMatchNoScheme | src/python/util/utilities.py:63-65 | the URI pattern fails to match only on a text that does not start with a scheme and `:` |
| Utilities.MatchStartsWithScheme | src/python/util/utilities.py:63-66 | the text the URI pattern matches starts with a scheme and `:` |
| Utilities.SanitizeUri | src/python/util/utilities.py:56-66 | `sanitize_uri` is None exactly when the rewritten text does not start with a scheme and `:`; otherwise it is a whitespace-free prefix of the rewritten text starting with a scheme |
| Utilities.EscapeLength | src/python/util/utilities.py:69 | an escape `\u…` or `\x…` spans at least three characters, the hex run taken greedily |
| Utilities.Sanitize | src/python/util/utilities.py:68-69 | `sanitize` never lengthens its input and leaves a text without backslash unchanged |
| Utilities.SanitizeShortensIff | src/python/util/utilities.py:68-69 | `sanitize` shortens its input exactly when the input holds an escape |
| Utilities.SanitizeUnchangedIff | src/python/util/utilities.py:68-69 | `sanitize` leaves its input unchanged exactly when the input holds no escape |
| Utilities.SanitizeKeepsPlain | src/python/util/utilities.py:68-69 | a text without escape comes out unchanged |
| Utilities.CreateUri | src/python/util/utilities.py:71-75 | `create_uri` never gives a literal; its blank node is the fresh one |
| Utilities.CreateUriMeaning | src/python/util/utilities.py:71-75 | `create_uri` gives a blank node exactly when `sanitize_uri` gives None, and otherwise the URIRef of `sanitize_uri`'s non-empty, whitespace-free result |
| Utilities.NoSchemeWithoutColon | src/python/util/utilities.py:57 | a text without `:` holds no scheme occurrence |
| Utilities.CreateUriWithoutColon | src/python/util/utilities.py:71-75 | `create_uri` of a text without `:` is the fresh blank node |
| Utilities.BlankNameUri | src/python/util/utilities.py:71-75 | `create_uri(str(bnode))` is a fresh blank node again |
| Rdf.BlankName | src/python/kg/knowledge.py:63 | the text of a blank node is `N` followed by digits, so it holds no `:` |
| Rdf.ProjectedAppend | src/python/kg/knowledge.py:16-18 | projecting two runs of entities one after the other adds what each adds |
| Rdf.ProjectedHas | src/python/kg/knowledge.py:16-18 | every entity projected contributes all its triples |
| Rdf.ProjectedFrom | src/python/kg/knowledge.py:16-18 | every triple of a projection comes from some entity projected |
| Rdf.Graph.Add | src/python/kg/knowledge.py:18 | `graph.add(t)` adds exactly `t` |
| Rdf.Graph.AddAll | src/python/kg/knowledge.py:17-18 | adding each triple of a set in any order adds exactly that set |
| Rdf.Graph.Close | src/python/hal_source/hal.py:401 | `graph.close()` marks the graph closed |
| Rdf.BlankNodes.Fresh | src/python/hal_source/hal.py:200 | `BNode()` draws a blank node never drawn before |
| Rdf.WriteIf | src/python/hal_source/hal.py:398-401 | a non-empty graph is stored under its file name, and nothing else changes; an empty one leaves every file as it was, adding none |
| Rdf.Disk.WriteIfNonEmpty | src/python/hal_source/hal.py:398-401 | serializing when the graph is non-empty, then closing: the file holds the graph's triples exactly when there are some |
| Fetch.Endpoint.Get | src/python/hal_source/hal.py:53-54 | `requests.get(url).json()` answers the oracle's response and logs the request |
| Fetch.CacheDir.Write | src/python/hal_source/hal.py:111-113 | `json.dump` to the cache file stores the response under the digest name |
| Fetch.CacheDir.Fetch | src/python/hal_source/hal.py:102-113 | cache-or-fetch reads an existing file without a request, and otherwise makes one request and stores its response |
| Fetch.CacheDir.Fetched | src/python/hal_source/hal.py:104-110 | the response is the cached file's when it exists, the service's otherwise |
| Fetch.CacheDir.CachedAfter | src/python/hal_source/hal.py:108-113 | cache-or-fetch adds only the file of the request, holding the response used |
| Fetch.CacheDir.CachedAfterKeeps | src/python/hal_source/hal.py:104-107 | an existing cache file is never rewritten |
| Fetch.CacheDir.FetchAllNext | src/python/hal_source/hal.py:100-113 | one more request of a run is cache-or-fetch from the directory the run leaves |
| Fetch.CacheDir.FetchAllAt | src/python/hal_source/hal.py:100-113 | the `i`-th response of a run is cache-or-fetch of the `i`-th request from the directory the earlier ones left |
| Fetch.CacheDir.Names | src/python/hal_source/hal.py:103 | the file names of a run are exactly the digest names of its requests |
| Fetch.CacheDir.FetchAllNames | src/python/hal_source/hal.py:100-113 | after a run the directory holds the files it held and one per request |
| Fetch.CacheDir.FetchAllKeeps | src/python/hal_source/hal.py:104-107 | a run never rewrites a file the directory held |
| Fetch.CacheDir.Missed | src/python/hal_source/hal.py:108-110 | cache-or-fetch makes one request on a miss and none on a hit |
| Entities.HoldsGrows | src/python/kg/knowledge.py:26-29 | an element held by a set is held by every larger set |
| Entities.Insert | src/python/kg/knowledge.py:158-159 | `set.add` of an entity: nothing is added when an element equal under `__eq__` is held, otherwise exactly the entity; afterwards it is held |
| Entities.InsertCitation | src/python/kg/knowledge.py:371-372 | `set.add` of a citation count adds nothing exactly when an equal count is held |
| Entities.EqualReflexive | src/python/kg/knowledge.py:95-101 | every entity is equal to itself under its class's `__eq__` |
| Entities.InsertPresent | src/python/kg/knowledge.py:158-159 | adding an element already held changes nothing; adding twice is adding once |
| Entities.AddedAllNext | src/python/kg/knowledge.py:158-159 | a loop of `add` calls takes one more element per turn |
| Entities.AddedAllAppend | src/python/kg/knowledge.py:158-159 | two loops of `add` calls in a row are one loop over both sequences |
| Entities.AddedAllGrows | src/python/kg/knowledge.py:158-159 | a loop of `add` calls never loses an element |
| Entities.AddedAllHolds | src/python/kg/knowledge.py:158-159 | every element a loop adds is held at its end |
| Entities.AddedAllOnly | src/python/kg/knowledge.py:158-159 | a loop of `add` calls adds only elements of the loop |
| Entities.InsertLaws | src/python/kg/knowledge.py:158-159 | `add` under `__eq__` never removes, adds at most its element, leaves it held, and holding survives growth |
| Entities.InsertCitationEqual | src/python/kg/knowledge.py:328-332 | a citation count with the source, count and date of one held is not added again |
| Entities.PaperEqualIff | src/python/kg/knowledge.py:380-383 | two papers are equal exactly when their URIs are |
| Entities.SameLabelOrganizationsEqual | src/python/kg/knowledge.py:212-228 | two organizations built from one label are equal, and share their URI when it is a URIRef, whatever their sources and fallback blank nodes |
| Entities.Children | src/python/kg/knowledge.py:91-93 | every sub-entity `to_rdf` recurses into is structurally smaller, so the projection terminates |
| Entities.TriplesSplit | src/python/kg/knowledge.py:83-93 | an entity's projection is its own triples plus the projections of its sub-entities |
| Entities.BelowAdd | src/python/kg/knowledge.py:91-93 | one more sub-entity adds exactly its projection |
| Entities.ThingProjection | src/python/kg/knowledge.py:83-90 | every Thing is linked to its source, carries the source's triples, and carries its retrieval literal when set |
| Entities.RetrievedFromOnlyWhenSet | src/python/kg/knowledge.py:88-89 | setting `retrieved_from` adds exactly its pav:retrievedFrom triple; unset, nothing |
| Entities.RetrievedFromAside | src/python/kg/knowledge.py:83-90 | entities that differ only in `retrieved_from` have the same class, kind and sub-entity triples |
| Entities.RetrievedFromAsideOwn | src/python/kg/knowledge.py:83-90 | `retrieved_from` does not reach the class or kind triples |
| Entities.RetrievedFromAsideChildren | src/python/kg/knowledge.py:83-90 | `retrieved_from` does not change the sub-entities projected |
| Entities.ThingRetrievedDelta | src/python/kg/knowledge.py:88-89 | the Thing triples of two such entities differ by the retrieval triple alone |
| Entities.ResourceAbstractOnlyWhenSet | src/python/kg/knowledge.py:163-164 | a Resource's abstract adds exactly its dcterms:abstract triple when set, nothing when unset |
| Entities.ResourceLicenseOnlyWhenSet | src/python/kg/knowledge.py:165-166 | the same for the license |
| Entities.ResourceCreatedOnlyWhenSet | src/python/kg/knowledge.py:169-170 | the creation date adds exactly one triple, under pav:retrievedFrom as written |
| Entities.ResourceModifiedOnlyWhenSet | src/python/kg/knowledge.py:171-172 | the same for the modification date |
| Entities.ResourceVersionOnlyWhenSet | src/python/kg/knowledge.py:173-174 | the same for the version, under owl:versionInfo |
| Entities.ClassDelta | src/python/kg/knowledge.py:161-162 | entities differing only in what Resource or Agent adds differ by exactly that in their projections |
| Entities.ThingDelta | src/python/kg/knowledge.py:83-90 | entities differing only in what Thing adds differ by exactly that |
| Entities.OwnDelta | src/python/kg/knowledge.py:83-93 | entities with the same sub-entities whose own triples differ by a set differ by it overall |
| Entities.KindDelta | src/python/kg/knowledge.py:276-280 | entities differing only in what the leaf class adds differ by exactly that |
| Entities.PersonProjection | src/python/kg/knowledge.py:276-280 | a Person always gets its foaf:Person type and both name triples, an unset name written "None" |
| Entities.PersonOrcid | src/python/kg/knowledge.py:283-287 | an ORCID adds exactly one triple: owl:sameAs for a URIRef, a roh:ORCID literal otherwise |
| Entities.ChildTriples | src/python/kg/knowledge.py:91-93 | a sub-entity's projection is part of its parent's |
| Entities.RepositoriesNotProjected | src/python/kg/knowledge.py:388-410 | a Paper's repositories never reach the graph |
| Knowledge.Source.constructor | src/python/kg/knowledge.py:34-38 | a new Source has the URI's literal as importedFrom and the two clock reads |
| Knowledge.Source.AddComment | src/python/kg/knowledge.py:13-14 | a comment is added to the set |
| Knowledge.Source.SetImportedFrom | src/python/kg/knowledge.py:40-41 | the setter stores its argument |
| Knowledge.Source.SetLastRefreshedOn | src/python/kg/knowledge.py:43-44 | the setter stores its argument |
| Knowledge.Source.SetRetrievedOn | src/python/kg/knowledge.py:46-47 | the setter stores its argument |
| Knowledge.Source.ToRdf | src/python/kg/knowledge.py:49-54 | `Source.to_rdf` adds exactly the comments and the three provenance triples |
| Knowledge.AddComments | src/python/kg/knowledge.py:16-18 | one rdfs:comment triple per comment, and nothing else |
| Knowledge.Project | src/python/kg/knowledge.py:83-93 | `to_rdf` of any entity adds exactly its projection, sub-entities included, so it never removes a triple and projecting twice is projecting once |
| Knowledge.ProjectEach | src/python/kg/knowledge.py:91-93 | the loops over sub-entities add exactly their projections |
| Knowledge.Thing.constructor | src/python/kg/knowledge.py:61-66 | a new Thing has the label `str(uri)`, no retrieval literal and no related entity |
| Knowledge.Thing.SetUri | src/python/kg/knowledge.py:68-69 | the setter stores its argument |
| Knowledge.Thing.SetLabel | src/python/kg/knowledge.py:71-72 | the setter stores its argument |
| Knowledge.Thing.SetSource | src/python/kg/knowledge.py:74-75 | the setter stores its argument |
| Knowledge.Thing.SetRetrievedFrom | src/python/kg/knowledge.py:77-78 | the setter stores its argument |
| Knowledge.Thing.AddRelated | src/python/kg/knowledge.py:80-81 | `add_related` appends, keeping duplicates |
| Knowledge.Thing.AddComment | src/python/kg/knowledge.py:13-14 | a comment is added to the set |
| Knowledge.Resource.constructor | src/python/kg/knowledge.py:126-135 | a new Resource has every optional field unset and every set empty |
| Knowledge.Resource.SetAbstract | src/python/kg/knowledge.py:137-138 | the setter stores its argument |
| Knowledge.Resource.SetLicense | src/python/kg/knowledge.py:140-141 | the setter stores its argument |
| Knowledge.Resource.AddKeyword | src/python/kg/knowledge.py:143-144 | a keyword already present leaves the set as it was |
| Knowledge.Resource.SetCreated | src/python/kg/knowledge.py:146-147 | the setter stores its argument |
| Knowledge.Resource.SetModified | src/python/kg/knowledge.py:149-150 | the setter stores its argument |
| Knowledge.Resource.SetVersion | src/python/kg/knowledge.py:152-153 | the setter stores its argument |
| Knowledge.Resource.AddReferencedBy | src/python/kg/knowledge.py:155-156 | set insertion under `__eq__` |
| Knowledge.Resource.AddIdentifier | src/python/kg/knowledge.py:158-159 | an identifier equal to one held leaves the set as it was |
| Knowledge.Agent.constructor | src/python/kg/knowledge.py:197-199 | a new Agent has no location |
| Knowledge.Agent.AddLocation | src/python/kg/knowledge.py:201-202 | a location is added to the set |
| Knowledge.UniqueIdentifier.constructor | src/python/kg/knowledge.py:115-116 | a new identifier builds to the fresh Identifier value of its source and URI |
| Knowledge.UniqueIdentifier.ToRdf | src/python/kg/knowledge.py:118-120 | `to_rdf` adds exactly the identifier's projection, datacite:Identifier type included |
| Knowledge.Repository.constructor | src/python/kg/knowledge.py:189-190 | a new Repository builds to the fresh Repository value |
| Knowledge.Repository.ToRdf | src/python/kg/knowledge.py:192-194 | `to_rdf` adds exactly the repository's projection, dcmitype:Software type included |
| Knowledge.CitationCount.constructor | src/python/kg/knowledge.py:305-309 | a new CitationCount sits on a fresh blank node with no date |
| Knowledge.CitationCount.SetDateOfCitation | src/python/kg/knowledge.py:311-312 | the setter stores its argument |
| Knowledge.CitationCount.ToRdf | src/python/kg/knowledge.py:314-320 | `to_rdf` adds exactly the source, value, optional date, the source's triples and the comments |
| Knowledge.Paper.constructor | src/python/kg/knowledge.py:335-345 | a new Paper builds to the fresh Paper value |
| Knowledge.Paper.SetTitle | src/python/kg/knowledge.py:347-348 | the setter stores its argument |
| Knowledge.Paper.AddAuthor | src/python/kg/knowledge.py:350-351 | set insertion under `__eq__` |
| Knowledge.Paper.SetPublicationDate | src/python/kg/knowledge.py:359-360 | the setter stores its argument |
| Knowledge.Paper.SetVenue | src/python/kg/knowledge.py:362-363 | the setter stores its argument |
| Knowledge.Paper.SetDoi | src/python/kg/knowledge.py:365-366 | the setter stores its argument |
| Knowledge.Paper.AddRelatedWork | src/python/kg/knowledge.py:368-369 | set insertion under `__eq__` |
| Knowledge.Paper.AddCitationCount | src/python/kg/knowledge.py:371-372 | a count equal to one held (same source, count and date) adds nothing |
| Knowledge.Paper.AddRepository | src/python/kg/knowledge.py:374-375 | a repository URI is added to the set |
| Knowledge.Paper.AddDownloadUrl | src/python/kg/knowledge.py:377-378 | a download URL is added to the set |
| Knowledge.Paper.ToRdf | src/python/kg/knowledge.py:388-410 | `to_rdf` adds exactly the paper's projection |
| Knowledge.Software.constructor | src/python/kg/knowledge.py:417-425 | a new Software builds to the fresh Software value |
| Knowledge.Software.AddCreator | src/python/kg/knowledge.py:427-428 | set insertion under `__eq__` |
| Knowledge.Software.AddLanguage | src/python/kg/knowledge.py:430-431 | a language is added to the set |
| Knowledge.Software.AddPlatform | src/python/kg/knowledge.py:433-434 | a platform is added to the set |
| Knowledge.Software.AddRepository | src/python/kg/knowledge.py:436-437 | a repository is added to the set |
| Knowledge.Software.AddAvailableAt | src/python/kg/knowledge.py:439-440 | a release date is added to the set |
| Knowledge.Software.SetPublication | src/python/kg/knowledge.py:442-443 | the setter stores its argument |
| Knowledge.Software.SetRights | src/python/kg/knowledge.py:445-446 | the setter stores its argument |
| Knowledge.Software.ToRdf | src/python/kg/knowledge.py:448-464 | `to_rdf` adds exactly the software's projection |
| Knowledge.Person.constructor | src/python/kg/knowledge.py:245-253 | a new Person builds to the fresh Person value |
| Knowledge.Person.SetFirstName | src/python/kg/knowledge.py:255-256 | the setter stores its argument |
| Knowledge.Person.SetLastName | src/python/kg/knowledge.py:258-259 | the setter stores its argument |
| Knowledge.Person.AddAlternative | src/python/kg/knowledge.py:261-262 | an alternative already present leaves the set as it was |
| Knowledge.Person.SetOrcid | src/python/kg/knowledge.py:264-265 | the setter stores its argument |
| Knowledge.Person.AddAffiliation | src/python/kg/knowledge.py:267-268 | set insertion under `__eq__` |
| Knowledge.Person.AddIdentifier | src/python/kg/knowledge.py:270-271 | an identifier equal to one held leaves the set as it was |
| Knowledge.Person.AddContact | src/python/kg/knowledge.py:273-274 | a contact is added to the set |
| Knowledge.Person.ToRdf | src/python/kg/knowledge.py:276-295 | `to_rdf` adds exactly the person's projection |
| Knowledge.Organization.constructor | src/python/kg/knowledge.py:213-217 | a new Organization has URI `create_uri(label)`, falling back to a fresh blank node, and the label itself |
| Knowledge.Organization.AddAlternative | src/python/kg/knowledge.py:219-220 | an alternative already present leaves the set as it was |
| Knowledge.Organization.AddIdentifier | src/python/kg/knowledge.py:222-223 | an identifier equal to one held leaves the set as it was |
| Knowledge.Organization.ToRdf | src/python/kg/knowledge.py:233-241 | `to_rdf` adds exactly the organization's projection |
| Hal.Items | src/python/hal_source/hal.py:185-186 | a guarded `for x in doc[field]` visits the field's elements when it is present and non-empty, and nothing otherwise |
| Hal.PageCountIff | src/python/hal_source/hal.py:59 | `while page * page_size < num_found` visits exactly the pages below the page count, and those pages cover every match |
| Hal.DigitsThen | src/python/hal_source/hal.py:100 | a page offset written before a non-digit text is read back unambiguously |
| Hal.CharAfter | src/python/hal_source/hal.py:100 | where one split of a text ends, the other still runs its prefix |
| Hal.PagedUrlInjective | src/python/hal_source/hal.py:100 | requests of different pages differ, so the cache is asked for each page under its own request |
| Hal.Prefixed | src/python/hal_source/hal.py:78-79 | the texts an identifier loop hands to `create_uri`, one per element |
| Hal.CreatedUris | src/python/hal_source/hal.py:78-79 | one URI per text, the `i`-th falling back to the `i`-th fresh blank |
| Hal.CreatedUrisAppend | src/python/hal_source/hal.py:77-94 | two minting runs in a row are one run, the second's blanks after the first's |
| Hal.IdentifiersOf | src/python/hal_source/hal.py:80-82 | one identifier per URI |
| Hal.IdentifiersAppend | src/python/hal_source/hal.py:77-94 | identifiers of two lists of URIs are those of both lists |
| Hal.WithIdentifiersAppend | src/python/hal_source/hal.py:77-94 | two identifier loops in a row are one loop over both lists of texts |
| Hal.WithIdentifierHolds | src/python/hal_source/hal.py:78-82 | the identifier built for the `i`-th text is held at the end of the loop |
| Hal.WithIdentifiersHold | src/python/hal_source/hal.py:78-82 | every identifier an identifier loop builds is held at its end, itself or as an equal one |
| Hal.WithIdentifiersOnly | src/python/hal_source/hal.py:78-82 | an identifier loop adds nothing but the identifiers it builds |
| Hal.TurnsNext | src/python/hal_source/hal.py:63-97 | one more document of a page appends what its turn yields, its blanks after the earlier ones |
| Hal.TurnsSkip | src/python/hal_source/hal.py:64 | a document whose turn yields nothing leaves the run as it was |
| Hal.TurnsPrefix | src/python/hal_source/hal.py:63-97 | what the first turns yield begins what the whole loop yields; blanks only grow |
| Hal.TurnsAt | src/python/hal_source/hal.py:63-97 | turn `k` yields its entities where the earlier turns' end |
| Hal.TurnsMember | src/python/hal_source/hal.py:63-97 | what one turn yields is among what the loop yields |
| Hal.TurnsProjected | src/python/hal_source/hal.py:95-96 | a triple projected by one turn is projected by the loop |
| Hal.TurnsSnoc | src/python/hal_source/hal.py:63-97 | a document at the end of a run starts its turn at the blank after the earlier ones |
| Hal.TurnsGrow | src/python/hal_source/hal.py:95-96 | a graph holding the run's projection, plus one more turn's, holds the longer run's projection |
| Hal.AttemptsStopped | src/python/hal_source/hal.py:179-180 | after a turn that raised, the later documents change nothing |
| Hal.AttemptsPrefixOk | src/python/hal_source/hal.py:179-180 | a loop finishes normally only if every earlier part of it did |
| Hal.AttemptsGrow | src/python/hal_source/hal.py:306-308 | a graph holding the projection of turns that finished, plus one more turn's, holds the longer run's; the run goes on as that turn did |
| Hal.AttemptsNext | src/python/hal_source/hal.py:179-308 | the same for the turn of the `i`-th document of the loop |
| Hal.GraphTurnsNext | src/python/hal_source/hal.py:365-390 | the turn of each row runs against the graph and blanks the earlier rows left |
| Hal.GraphTurnsGrows | src/python/hal_source/hal.py:390 | the graph only grows over the rows |
| Hal.GraphTurnsAll | src/python/hal_source/hal.py:365-390 | the loop over all rows is the last prefix of the loop |
| Hal.GraphTurnsKeep | src/python/hal_source/hal.py:365-390 | every row's projection stays in the graph after the loop |
| Hal.Zip | src/python/hal_source/hal.py:59-113 | the pages a paging loop processes, each with the request it answered |
| Hal.ZipNext | src/python/hal_source/hal.py:59-113 | one more page processed appends its visit |
| Hal.WriteHalGraph | src/python/hal_source/hal.py:396-413 | each of the four HAL graphs is written to its file when not empty and closed in any case |
| Hal.WrittenFiles | src/python/hal_source/hal.py:396-413 | each non-empty graph ends up in its own file, the file of an empty graph is left as it was (absent if absent), and a file none is written to keeps what it held |
| HalAuthors.AuthorUrls | src/python/hal_source/hal.py:100 | one request per page, in page order |
| HalAuthors.AuthorUrlsAt | src/python/hal_source/hal.py:100 | the `k`-th request is the one for page `first + k` |
| HalAuthors.AuthorUrlInjective | src/python/hal_source/hal.py:100-103 | different pages are different requests |
| HalAuthors.AuthorIdentifierTexts | src/python/hal_source/hal.py:77-94 | the texts `create_uri` receives, in order: each ORCID behind the ORCID namespace, then the Google Scholar and IdRef values as they are |
| HalAuthors.AuthorPerson | src/python/hal_source/hal.py:66-76 | the Person of an author document is on its URI, from the author source, retrieved from the page's request, with the identifiers given |
| HalAuthors.AuthorProjected | src/python/hal_source/hal.py:66-96 | an author with an idHal is projected as a foaf:Person retrieved from the page's request, with the first and last names the document gives |
| HalAuthors.AddIdentifiers | src/python/hal_source/hal.py:77-82 | an identifier loop adds one Identifier on `create_uri(ns + x)` per element, each drawing the next blank |
| HalAuthors.PrefixedEmpty | src/python/hal_source/hal.py:85 | the Google Scholar and IdRef loops hand each text to `create_uri` unchanged |
| HalAuthors.ThreeLoops | src/python/hal_source/hal.py:77-94 | the three identifier loops build the identifiers of one loop over all their texts |
| HalAuthors.SetAuthorNames | src/python/hal_source/hal.py:71-76 | first name, last name and scientific full name are set exactly when the document gives them |
| HalAuthors.NewAuthorPerson | src/python/hal_source/hal.py:67-76 | the Person builder with the guarded setters builds the document's Person without identifiers |
| HalAuthors.AddAuthorIdentifiers | src/python/hal_source/hal.py:77-94 | the three loops add the identifiers of all the document's identifier texts, drawing one blank each |
| HalAuthors.NewAuthor | src/python/hal_source/hal.py:66-95 | an author with an idHal builds to its Person and draws one blank per `create_uri` |
| HalAuthors.AuthorToRdf | src/python/hal_source/hal.py:64-96 | the body of the document loop adds exactly the projection of the author's Person, and nothing for a document without idHal |
| HalAuthors.PageToRdf | src/python/hal_source/hal.py:63-97 | the document loop of a page adds exactly the projection of the page's Persons |
| HalAuthors.AuthorSkipped | src/python/hal_source/hal.py:64 | an author without an idHal changes nothing |
| HalAuthors.AuthorTurnTyped | src/python/hal_source/hal.py:66-96 | an author with an idHal types its minted URI foaf:Person |
| HalAuthors.PageAuthorsTyped | src/python/hal_source/hal.py:63-96 | every author of a page with an idHal is typed foaf:Person under the URI minted when its turn came |
| HalAuthors.AuthorUrlsNext | src/python/hal_source/hal.py:98-100 | the next page's request follows the earlier ones |
| HalAuthors.AuthorVisits | src/python/hal_source/hal.py:53-113 | the pages processed: one per page of the page count |
| HalAuthors.AuthorVisitsAt | src/python/hal_source/hal.py:53-113 | page `k` is processed with its own request as literal, the first response for page 0 and the `k`-th fetched one after it |
| HalAuthors.ZipVisitsNext | src/python/hal_source/hal.py:98-113 | recording page `page` extends the visits by its request and response |
| HalAuthors.VisitsNext | src/python/hal_source/hal.py:98-113 | after page `page` is processed and the next one cache-or-fetched, the fetches cover pages 1 to `page + 1` |
| HalAuthors.HarvestPage | src/python/hal_source/hal.py:62-96 | processing one more page adds exactly its Persons' projection, after the earlier pages' blanks |
| HalAuthors.FetchNextPage | src/python/hal_source/hal.py:98-113 | the next page is cache-or-fetched, extending the run of fetches by its request |
| HalAuthors.ProcessHalAuthors | src/python/hal_source/hal.py:28-113 | the graph gains exactly the projection of the Persons of every page, the first requested directly and the rest through the cache, which holds exactly the pages fetched |
| HalAuthors.AuthorPages | src/python/hal_source/hal.py:59-113 | the paging loop processes exactly the pages below the page count and fetches one page past the last |
| HalAuthors.HarvestTyped | src/python/hal_source/hal.py:59-113 | every author with an idHal of every page processed is typed foaf:Person in what the harvest adds |
| HalSoftware.SoftwareUrls | src/python/hal_source/hal.py:162-163 | one request per page, in page order |
| HalSoftware.SoftwareUrlsAt | src/python/hal_source/hal.py:163 | the `k`-th request is the one for page `k` |
| HalSoftware.SoftwareUrlInjective | src/python/hal_source/hal.py:163-166 | different pages are different requests |
| HalSoftware.FirstUrlDiffers | src/python/hal_source/hal.py:150-163 | the loop's request for page 0 differs from the first request, so page 0 is requested again |
| HalSoftware.ItemSet | src/python/hal_source/hal.py:193-195 | a set-adding loop leaves exactly the texts of the list in the set |
| HalSoftware.ItemSetNext | src/python/hal_source/hal.py:194-195 | one more turn adds its text |
| HalSoftware.LastOr | src/python/hal_source/hal.py:186-187 | a loop of setters leaves the last text, or the value it had when there is none |
| HalSoftware.SetLabels | src/python/hal_source/hal.py:185-187 | the titles loop leaves the last title as the label, and the label unchanged when there is no title |
| HalSoftware.SetAbstracts | src/python/hal_source/hal.py:189-191 | the abstracts loop leaves the last abstract when the field is filled, and nothing set otherwise |
| HalSoftware.AddKeywords | src/python/hal_source/hal.py:193-195 | the keywords are the field's elements added to the set |
| HalSoftware.AddRepositories | src/python/hal_source/hal.py:239-241 | the code repositories are the field's elements added to the set |
| HalSoftware.AddLanguages | src/python/hal_source/hal.py:243-245 | the languages are the field's elements added to the set |
| HalSoftware.AddPlatforms | src/python/hal_source/hal.py:247-249 | the platforms are the field's elements added to the set |
| HalSoftware.NamedCreator | src/python/hal_source/hal.py:199-204 | a full-name creator is a Person on a fresh blank, labelled with the name and retrieved from the page's request |
| HalSoftware.NamedCreators | src/python/hal_source/hal.py:197-204 | one creator per full name |
| HalSoftware.NamedCreatorsAt | src/python/hal_source/hal.py:198-204 | the `i`-th full-name creator is on the `i`-th blank of the loop |
| HalSoftware.WithNamed | src/python/hal_source/hal.py:197-204 | the full-name loop draws one blank per name |
| HalSoftware.IdCreator | src/python/hal_source/hal.py:208-215 | an identified creator is a Person on the blank after its identifier's, holding one Identifier on `create_uri(text)` |
| HalSoftware.IdCreators | src/python/hal_source/hal.py:206-237 | one creator per element of an identifier field |
| HalSoftware.IdCreatorsAt | src/python/hal_source/hal.py:207-215 | the `i`-th identified creator draws its two blanks after the earlier ones |
| HalSoftware.WithIds | src/python/hal_source/hal.py:206-237 | an identifier loop draws two blanks per element |
| HalSoftware.OrgCreator | src/python/hal_source/hal.py:262-269 | a structure creator is an Organization labelled with a fresh blank's name, holding one Identifier on `create_uri(text)` |
| HalSoftware.OrgCreators | src/python/hal_source/hal.py:260-302 | one organization per element of a structure field |
| HalSoftware.OrgCreatorsAt | src/python/hal_source/hal.py:261-269 | the `i`-th organization draws its three blanks after the earlier ones |
| HalSoftware.WithOrgs | src/python/hal_source/hal.py:260-302 | a structure loop draws three blanks per element |
| HalSoftware.NewIdentifier | src/python/hal_source/hal.py:211-212 | the identifier builder with its retrieval literal builds the identifier value |
| HalSoftware.NewNamedCreator | src/python/hal_source/hal.py:199-204 | one turn of the full-name loop builds its creator on one fresh blank |
| HalSoftware.NewIdCreator | src/python/hal_source/hal.py:208-215 | one turn of an identifier loop builds its creator on two fresh blanks |
| HalSoftware.NewOrgCreator | src/python/hal_source/hal.py:262-269 | one turn of a structure loop builds its organization on three fresh blanks |
| HalSoftware.AddNamedCreators | src/python/hal_source/hal.py:198-204 | the full-name loop adds its creators and draws its blanks |
| HalSoftware.AddIdCreators | src/python/hal_source/hal.py:207-215 | an identifier loop adds its creators and draws its blanks |
| HalSoftware.AddOrgCreators | src/python/hal_source/hal.py:261-269 | a structure loop adds its organizations and draws its blanks |
| HalSoftware.PersonCreators | src/python/hal_source/hal.py:196-237 | the four person loops draw one blank per full name and two per person identifier |
| HalSoftware.OrgGroupCreators | src/python/hal_source/hal.py:259-302 | the four structure loops draw three blanks per structure |
| HalSoftware.SoftwareCreators | src/python/hal_source/hal.py:196-302 | the eight creator loops draw exactly the creator blanks |
| HalSoftware.NamedGroup | src/python/hal_source/hal.py:197-204 | the full-name loop runs only when the field is filled |
| HalSoftware.IdGroup | src/python/hal_source/hal.py:206-237 | an identifier loop runs only when its field is filled |
| HalSoftware.OrgGroup | src/python/hal_source/hal.py:260-302 | a structure loop runs only when its field is filled |
| HalSoftware.AddPersonCreators | src/python/hal_source/hal.py:196-237 | the four person loops in source order |
| HalSoftware.AddOrgGroupCreators | src/python/hal_source/hal.py:259-302 | the four structure loops in source order |
| HalSoftware.AddSoftwareCreators | src/python/hal_source/hal.py:196-302 | the eight creator loops leave the creators of the document |
| HalSoftware.SoftwareEntityFields | src/python/hal_source/hal.py:180-306 | the Software of a document is on the URI minted from its `halId_s`, retrieved from the page's request, labelled with its last title (the URI's text without one), has an abstract exactly when one is given, its list fields as sets, the creators of the eight loops, and "Open Access" rights exactly when `openAccess_bool` is true |
| HalSoftware.FillSoftware | src/python/hal_source/hal.py:184-249 | the text and list fields of the document, in source order |
| HalSoftware.FillDates | src/python/hal_source/hal.py:250-305 | the dates and the rights of the document |
| HalSoftware.PersonStep | src/python/hal_source/hal.py:196-237 | the four person loops on the Software being built |
| HalSoftware.OrgGroupStep | src/python/hal_source/hal.py:259-302 | the four structure loops on the Software being built |
| HalSoftware.AddCreatorsAndDates | src/python/hal_source/hal.py:196-302 | persons, dates and structures in source order; the loops draw exactly the creator blanks |
| HalSoftware.NewSoftwareFrom | src/python/hal_source/hal.py:180-306 | the builder with every field of the document builds the document's Software and draws its blanks |
| HalSoftware.TextsUncreated | src/python/hal_source/hal.py:181-249 | the Software has no creator before the creator loops |
| HalSoftware.SoftwareEntitySteps | src/python/hal_source/hal.py:180-306 | the Software of a document is its texts, then the creator loops and the dates |
| HalSoftware.SoftwareTurn | src/python/hal_source/hal.py:180-308 | a document without `halId_s` yields nothing and raises; one with it yields its Software and raises after the projection exactly when it has no `title_s` key |
| HalSoftware.SoftwareTurnGiven | src/python/hal_source/hal.py:180-308 | a document with a `halId_s` yields exactly its Software |
| HalSoftware.ProjectSoftware | src/python/hal_source/hal.py:180-307 | the Software of a document is built and exactly its projection is added |
| HalSoftware.ProjectBuilt | src/python/hal_source/hal.py:306-307 | `software_obj.to_rdf(graph)` adds exactly the projection of the Software built |
| HalSoftware.SoftwareToRdf | src/python/hal_source/hal.py:180-308 | the body of the document loop adds exactly the turn's projection and reports whether it raised |
| HalSoftware.SoftwarePageToRdf | src/python/hal_source/hal.py:179-308 | the document loop adds the projection of every Software up to the first raise, and stops there |
| HalSoftware.SoftwareVisits | src/python/hal_source/hal.py:162-179 | one visit per page fetched |
| HalSoftware.SoftwareVisitsAt | src/python/hal_source/hal.py:162-179 | page `k` is processed with its own request and the `k`-th response |
| HalSoftware.HarvestNone | src/python/hal_source/hal.py:162 | nothing fetched, nothing harvested |
| HalSoftware.SoftwareVisitsNext | src/python/hal_source/hal.py:162-179 | one more page extends the visits by its request and response |
| HalSoftware.FetchSoftwarePage | src/python/hal_source/hal.py:163-176 | the page is cache-or-fetched, extending the run of fetches by its request |
| HalSoftware.HarvestSoftwarePage | src/python/hal_source/hal.py:178-308 | one more page adds exactly its Software's projection, and reports whether a document raised |
| HalSoftware.SoftwarePageTurn | src/python/hal_source/hal.py:162-309 | one whole turn of the paging loop keeps the loop's invariants |
| HalSoftware.SoftwarePages | src/python/hal_source/hal.py:162-309 | the paging loop fetches every page below the page count unless a document raises, and then stops after that page |
| HalSoftware.ProcessHalSoftware | src/python/hal_source/hal.py:115-309 | the graph gains exactly the projection of the Software of every page up to the first raise; the first request is made directly and every page through the cache |
| HalOrganizations.ParentEntity | src/python/hal_source/hal.py:378-387 | the parent of an enriched row is an Organization on `create_uri(str(bnode))` of a fresh blank, labelled with `superOrgLabel`, retrieved from the query, with exactly the identifier minted from `superOrgId`, no related and no alternative |
| HalOrganizations.Acronyms | src/python/hal_source/hal.py:376-377 | an acronym is added exactly when it is bound, and it is the only alternative |
| HalOrganizations.Parents | src/python/hal_source/hal.py:378-388 | a parent is related exactly when `superOrg` is bound, and it is the only one |
| HalOrganizations.BareOrg | src/python/hal_source/hal.py:368-370 | the organization of a skipped row has the endpoint's source, the text of its URI as label, and nothing else |
| HalOrganizations.EnrichedOrg | src/python/hal_source/hal.py:368-389 | the organization of an enriched row has the row's URI, label, identifier, acronym and parent, and is retrieved from the query |
| HalOrganizations.OrgTurn | src/python/hal_source/hal.py:366-389 | a row is left bare exactly when the graph already types its URI as `hal:Organization`, and enriched exactly when it does not; it draws three blanks, six with an enriched parent |
| HalOrganizations.OrgRunBlanks | src/python/hal_source/hal.py:365-390 | the row loop draws between three and six blanks per row |
| HalOrganizations.OrgRunProjects | src/python/hal_source/hal.py:365-390 | after the row loop the graph holds what it held before and the projection of every row's organization |
| HalOrganizations.OrgRunSkipsKnown | src/python/hal_source/hal.py:372 | a row whose URI the loaded graph already types as `hal:Organization` is never enriched, whatever the earlier rows add |
| HalOrganizations.NewPlainIdentifier | src/python/hal_source/hal.py:371 | `Identifier.Builder(source, uri).build()` builds the identifier value on `uri` |
| HalOrganizations.NewParent | src/python/hal_source/hal.py:379-387 | the parent is built as `ParentEntity`, on three fresh blanks |
| HalOrganizations.LabelParent | src/python/hal_source/hal.py:384-386 | the parent gains its identifier, label and retrieval literal, and nothing else changes |
| HalOrganizations.Enrich | src/python/hal_source/hal.py:373-388 | the `if` body turns the bare organization into the enriched one, drawing three more blanks exactly when there is a parent |
| HalOrganizations.AttachParent | src/python/hal_source/hal.py:378-388 | the parent, when bound, is appended to the related list |
| HalOrganizations.EnrichedFromLabelled | src/python/hal_source/hal.py:373-388 | labelling the bare organization and appending its parents gives the enriched organization |
| HalOrganizations.Label | src/python/hal_source/hal.py:373-377 | identifier, retrieval literal, label and acronym are set, and nothing else changes |
| HalOrganizations.AddAcronym | src/python/hal_source/hal.py:376-377 | the acronym, when bound, is added to the alternatives |
| HalOrganizations.NewBareOrg | src/python/hal_source/hal.py:368-371 | the row's URI, its identifier and its bare organization, on three fresh blanks |
| HalOrganizations.NewRowOrganization | src/python/hal_source/hal.py:368-389 | the organization of a row is the one `OrgTurn` gives against the graph as it stands |
| HalOrganizations.OrgToRdf | src/python/hal_source/hal.py:366-390 | the loop body adds exactly the projection of the row's organization |
| HalOrganizations.OrgRowsToRdf | src/python/hal_source/hal.py:365-390 | the row loop leaves the graph and the blank counter `OrgRun` gives |
| HalOrganizations.OrgRowTurn | src/python/hal_source/hal.py:365-390 | one more row keeps the loop's invariant |
| HalOrganizations.ProcessHalOrganization | src/python/hal_source/hal.py:346-390 | the rows are cache-or-fetched for the query, and each row's organization is projected against the graph the earlier rows left |
| Dblp.ScanMeaning | src/python/dblp_source/dblp.py:107-119 | the variable loop raises exactly when a listed `publ`, `title` or `cites` is unbound or the count is not an integer; otherwise each slot holds its variable's value when listed, the DOI only when also bound |
| Dblp.ReadRowMeaning | src/python/dblp_source/dblp.py:107-121 | a row raises exactly when it is unreadable, is skipped exactly when one of `publ`, `title`, `cites` is not listed, and is otherwise the row of its bound values |
| Dblp.ScanRaised | src/python/dblp_source/dblp.py:111-119 | once the variable loop has raised, the remaining variables change nothing |
| Dblp.ScanNext | src/python/dblp_source/dblp.py:111-119 | one more variable continues the loop from where it stood |
| Dblp.ReadBinding | src/python/dblp_source/dblp.py:107-121 | the imperative variable loop and skip test compute the row `ReadRow` describes |
| Dblp.AddCitation | src/python/dblp_source/dblp.py:134 | adding a count to a stored paper changes only its counts, adds at most that count, and changes nothing exactly when an equal count is already held |
| Dblp.FirstPaper | src/python/dblp_source/dblp.py:123-132 | the paper a URI's first row creates has that URI and source, the row's title, its DOI when bound, no identifier and exactly the one count |
| Dblp.AddRow | src/python/dblp_source/dblp.py:123-134 | an accepted row keeps the dictionary keyed by URI and its order listing every key once, adds exactly its URI, and draws blanks |
| Dblp.Fold | src/python/dblp_source/dblp.py:103-134 | the binding loop keeps the dictionary keyed by URI and never takes back blanks |
| Dblp.FoldStep | src/python/dblp_source/dblp.py:104-134 | one binding keeps the dictionary keyed by URI |
| Dblp.FoldNext | src/python/dblp_source/dblp.py:103-134 | one more binding continues the loop, unless it has raised |
| Dblp.FoldRaised | src/python/dblp_source/dblp.py:103-134 | once the binding loop has raised, the rest of the bindings change nothing |
| Dblp.GrownAt | src/python/dblp_source/dblp.py:123-134 | a paper kept through growth keeps its title, DOI and identifiers, and its counts only grow |
| Dblp.GrownRefl | src/python/dblp_source/dblp.py:103-134 | nothing done is growth |
| Dblp.GrownTrans | src/python/dblp_source/dblp.py:103-134 | growth after growth is growth |
| Dblp.AddRowGrows | src/python/dblp_source/dblp.py:123-134 | an accepted row keeps every paper held, at most adding a count, and extends the insertion order |
| Dblp.RetouchedSelf | src/python/dblp_source/dblp.py:134 | a paper retouched with its own identifiers and counts is itself |
| Dblp.FoldKeeps | src/python/dblp_source/dblp.py:103-134 | what a prefix of the bindings left is kept by the rest of the loop, counts only growing, order extended |
| Dblp.FoldAt | src/python/dblp_source/dblp.py:103-134 | an accepted row was added to what the earlier rows left, and what it made only grew afterwards |
| Dblp.FirstRowWins | src/python/dblp_source/dblp.py:124-132 | the first row of a URI fixes its paper's title and DOI for good, and its count stays held |
| Dblp.AddRowCounted | src/python/dblp_source/dblp.py:123-134 | an accepted row's count is held by its paper, whatever growth follows |
| Dblp.RowCounted | src/python/dblp_source/dblp.py:103-134 | every accepted row's count is held by the final paper of its URI |
| Dblp.RepeatedCount | src/python/dblp_source/dblp.py:134 | a row whose count equals one already held leaves the dictionary and its order as they were |
| Dblp.NewArticle | src/python/dblp_source/dblp.py:125-131 | `Paper`, `set_title`, a new count and `set_doi` build `FirstPaper`, drawing one blank |
| Dblp.CountAndDoi | src/python/dblp_source/dblp.py:129-131 | the paper gains the count, and the DOI when bound, and nothing else changes |
| Dblp.AddArticle | src/python/dblp_source/dblp.py:122-134 | the `else` branch of the loop computes `AddRow` |
| Dblp.FoldArticles | src/python/dblp_source/dblp.py:103-134 | the imperative binding loop computes `Fold`: the same papers, order and blanks, or the same exception |
| Dblp.ChunksPrefix | src/python/dblp_source/dblp.py:73 | the first `k` chunks are the first `5k` papers |
| Dblp.ChunksConcat | src/python/dblp_source/dblp.py:73 | the chunks, one after the other, are the list; each holds one to five papers and all but the last exactly five |
| Dblp.ScanLinkMeaning | src/python/dblp_source/dblp.py:82-86 | the sameAs variable loop raises exactly on a listed but unbound variable; otherwise each slot holds its listed value |
| Dblp.ReadLinkMeaning | src/python/dblp_source/dblp.py:80-87 | a sameAs binding raises exactly when unreadable, and yields the link exactly when both `paper` and `sameAs` are listed |
| Dblp.ReadSameAs | src/python/dblp_source/dblp.py:80-87 | the imperative variable loop computes `ReadLink` |
| Dblp.AddIdentifier | src/python/dblp_source/dblp.py:88 | `add_identifier` adds at most that identifier, leaves one equal to it held, and changes nothing else |
| Dblp.LinkStep | src/python/dblp_source/dblp.py:76-88 | a sameAs binding keeps the dictionary keyed and its keys unchanged |
| Dblp.MergeResult | src/python/dblp_source/dblp.py:76-88 | the binding loop over one result keeps the keys |
| Dblp.MergeChunks | src/python/dblp_source/dblp.py:74-88 | the chunk loop keeps the keys |
| Dblp.Merge | src/python/dblp_source/dblp.py:69-89 | `get_article_same_as` keeps the keys |
| Dblp.MergeNext | src/python/dblp_source/dblp.py:76-88 | one more binding continues the sameAs loop, unless it has raised |
| Dblp.MergeRaised | src/python/dblp_source/dblp.py:76-88 | once the sameAs loop has raised, the rest of the bindings change nothing |
| Dblp.MergeBinding | src/python/dblp_source/dblp.py:77-88 | the imperative binding body computes `LinkStep` |
| Dblp.MergeLinks | src/python/dblp_source/dblp.py:76-88 | the imperative binding loop computes `MergeResult` |
| Dblp.MergeChunksNext | src/python/dblp_source/dblp.py:74-88 | one more chunk merges its sameAs result, unless the loop has raised |
| Dblp.MergeChunksRaised | src/python/dblp_source/dblp.py:74-88 | once the chunk loop has raised, the rest of the chunks change nothing |
| Dblp.GetArticleSameAs | src/python/dblp_source/dblp.py:69-89 | the imperative chunk loop computes `Merge` |
| Dblp.IdsGrownTrans | src/python/dblp_source/dblp.py:69-89 | identifier growth after identifier growth is identifier growth |
| Dblp.LinkStepGrows | src/python/dblp_source/dblp.py:88 | a sameAs binding changes at most identifiers, which only grow |
| Dblp.MergeKeeps | src/python/dblp_source/dblp.py:76-88 | what a prefix of a sameAs result left is kept, up to more identifiers |
| Dblp.MergeResultGrows | src/python/dblp_source/dblp.py:76-88 | a sameAs result changes at most identifiers |
| Dblp.MergeChunksKeeps | src/python/dblp_source/dblp.py:74-88 | what a prefix of the chunks left is kept, up to more identifiers |
| Dblp.MergeGrows | src/python/dblp_source/dblp.py:69-89 | the sameAs merge keeps every paper, its title, DOI and counts, and only adds identifiers |
| Dblp.LinkHeldIn | src/python/dblp_source/dblp.py:76-88 | every accepted sameAs binding of a result leaves its identifier on its paper |
| Dblp.LinkHeld | src/python/dblp_source/dblp.py:72-88 | every accepted sameAs binding of every chunk leaves a UniqueIdentifier of its sameAs URI, or one equal to it, on its paper |
| Dblp.YearRun | src/python/dblp_source/dblp.py:93-137 | a year's papers are keyed by URI and listed in order, and blanks are never taken back |
| Dblp.YearKeepsRows | src/python/dblp_source/dblp.py:93-137 | a year's papers are those its rows made, with at most more identifiers |
| Dblp.GetArticlePerYear | src/python/dblp_source/dblp.py:93-137 | `get_article_per_year` computes `YearRun`: the values of its dictionary, or its exception |
| Dblp.UnionEqValues | src/python/dblp_source/dblp.py:143 | `set.union` under `__eq__` on two years' papers is the join of their maps with the earlier year's paper kept |
| Dblp.YearsOf | src/python/dblp_source/dblp.py:140-143 | the loop covers the start year, and every year through the current one when the start is not later |
| Dblp.PerYearKeyed | src/python/dblp_source/dblp.py:93-137 | every year's run keeps its papers keyed by URI and never takes back blanks |
| Dblp.Years | src/python/dblp_source/dblp.py:141-143 | the union so far is keyed by URI |
| Dblp.YearsLast | src/python/dblp_source/dblp.py:141-143 | the last year joins its papers to the union of the years before it |
| Dblp.YearsKeep | src/python/dblp_source/dblp.py:143 | a later year never replaces a paper an earlier year brought |
| Dblp.YearKept | src/python/dblp_source/dblp.py:143 | every URI of every year is in the union |
| Dblp.YearHeld | src/python/dblp_source/dblp.py:143 | every paper of every year is held by the union, itself or a paper equal to it |
| Dblp.YearsFrom | src/python/dblp_source/dblp.py:143 | every paper of the union is the paper of the first year that brought its URI |
| Dblp.YearsNone | src/python/dblp_source/dblp.py:141 | before the first year the union is empty |
| Dblp.YearsNext | src/python/dblp_source/dblp.py:142-143 | one more year raises or joins its papers to the union as `set.union` does |
| Dblp.YearJoin | src/python/dblp_source/dblp.py:141-143 | the first year's papers are the union; each later year's are joined to it |
| Dblp.YearsRaised | src/python/dblp_source/dblp.py:141-143 | once a year has raised, the later years change nothing |
| Dblp.YearTurn | src/python/dblp_source/dblp.py:141-143 | one year of the loop keeps the loop's invariant or ends it with the year's exception |
| Dblp.YearsCovered | src/python/dblp_source/dblp.py:142 | the loop ends having covered every year from the start year through the current one |
| Dblp.MostCited | src/python/dblp_source/dblp.py:139-144 | the union of the years is keyed by URI |
| Dblp.DblpMostCitedArticles | src/python/dblp_source/dblp.py:139-144 | `dblp_most_cited_articles` computes `MostCited`: the papers of every year, the first year's paper kept for a URI, or the first year's exception |
| Github.OfLengthAppend | src/python/github_source/github.py:47 | the names of one length in a concatenation are those of each part, in order |
| Github.OfLengthShorter | src/python/github_source/github.py:47 | a longest-first list whose longest name is shorter than `n` has no name of length `n` |
| Github.Insert | src/python/github_source/github.py:47 | inserting a name into a list lengthens it by one |
| Github.InsertPermutes | src/python/github_source/github.py:47 | insertion adds exactly the name |
| Github.InsertBound | src/python/github_source/github.py:47 | insertion keeps every name within a length bound |
| Github.InsertSorted | src/python/github_source/github.py:47 | insertion keeps a list longest first |
| Github.InsertStable | src/python/github_source/github.py:47 | insertion puts the name after every name of the same length |
| Github.ByLength | src/python/github_source/github.py:47 | sorting by length keeps the number of names |
| Github.ByLengthPermutes | src/python/github_source/github.py:47 | `sorted(..., key=len, reverse=True)` is a permutation of the names |
| Github.ByLengthSorted | src/python/github_source/github.py:47 | the sorted names are longest first |
| Github.ByLengthStable | src/python/github_source/github.py:47 | the sort is stable: names of equal length keep their order |
| Github.OfLengthSnoc | src/python/github_source/github.py:47 | the names of one length of a list are those before its last name, then the last if it has the length |
| Github.OfLengthOne | src/python/github_source/github.py:47 | a single name is kept exactly when it has the length |
| Github.ChosenLongest | src/python/github_source/github.py:47 | the query keeps `min(5, n)` of the names, each at least as long as every name left out |
| Github.Join | src/python/github_source/github.py:48 | `" OR ".join` of one name is that name |
| Github.JoinLength | src/python/github_source/github.py:48 | the joined query is the names' lengths plus four characters per separator |
| Github.QueryBounded | src/python/github_source/github.py:48-50 | the query is at most 256 characters long, is a prefix of the full query, and is the full query exactly when that fits |
| Github.Kept | src/python/github_source/github.py:57-61 | a search over the user limit keeps no user, and otherwise keeps every user found |
| Github.EachNext | src/python/github_source/github.py:70-95 | one more user adds its own triples and blanks |
| Github.UserAlways | src/python/github_source/github.py:71-78 | every user links the person to its URI, types it as a GitHub user, and records its URL, refresh date and login |
| Github.UserName | src/python/github_source/github.py:79-80 | a name adds exactly its `foaf:name` triple |
| Github.UserBlog | src/python/github_source/github.py:81-82 | a blog adds exactly its `foaf:homepage` triple |
| Github.UserEmail | src/python/github_source/github.py:83-84 | an email adds exactly its `foaf:mbox_sha1sum` triple |
| Github.UserBio | src/python/github_source/github.py:85-86 | a bio adds exactly its `rdfs:comment` triple |
| Github.UserLocation | src/python/github_source/github.py:94-95 | a location adds exactly its `dcterms:coverage` triple |
| Github.UserCompany | src/python/github_source/github.py:87-93 | a company adds exactly a fresh organization node, its type, label, source and refresh date, and the membership |
| Github.AddOpt | src/python/github_source/github.py:79-95 | an optional field adds its triple only when set |
| Github.AddBase | src/python/github_source/github.py:74-78 | the five triples every user adds |
| Github.AddCompany | src/python/github_source/github.py:87-93 | the company triples, on a fresh blank when there is a company |
| Github.Unions | src/python/github_source/github.py:74-95 | the graph after the user's adds is the graph before plus all of them |
| Github.AddUser | src/python/github_source/github.py:71-95 | one user adds exactly its triples and draws its blanks |
| Github.AddUsers | src/python/github_source/github.py:70-95 | the users loop adds exactly every user's triples |
| Github.SearchForPerson | src/python/github_source/github.py:44-95 | `search_for_person` changes the graph, the cache, the request log and the blanks exactly as `Search` says |
| Github.SearchCached | src/python/github_source/github.py:65-69 | a cached query sends no request, writes no file, and adds the cached users' triples |
| Github.SearchLimited | src/python/github_source/github.py:53-64 | an uncached query is sent once; over the limit it caches an empty list and adds nothing |
| Github.SearchGrows | src/python/github_source/github.py:44-95 | a search only adds triples and files, and leaves its query cached |
| Github.SearchAgain | src/python/github_source/github.py:51-69 | the same names searched again send no request |
| Github.RowsOf | src/python/github_source/github.py:113-128 | a group stands for one row per name, in order |
| Github.Runs | src/python/github_source/github.py:113-132 | grouping gives at most one group per row, and none exactly for no rows |
| Github.ExpandSnoc | src/python/github_source/github.py:113-132 | expanding one more group appends its rows |
| Github.RowsOfSnoc | src/python/github_source/github.py:128 | one more name appends one row |
| Github.ExpandJoin | src/python/github_source/github.py:128 | a name joining the last group appends its row |
| Github.ExpandStart | src/python/github_source/github.py:124-126 | a new group appends its row |
| Github.RunsStartOn | src/python/github_source/github.py:119-126 | a row of another person starts a new group |
| Github.RunsJoinOn | src/python/github_source/github.py:127-128 | a row of the same person joins the last group |
| Github.RunsExpand | src/python/github_source/github.py:113-132 | the groups, expanded, are the rows |
| Github.MaximalJoin | src/python/github_source/github.py:127-128 | joining the last group keeps neighbouring groups apart |
| Github.MaximalStart | src/python/github_source/github.py:119-126 | starting a group for another person keeps neighbouring groups apart |
| Github.RunsMaximal | src/python/github_source/github.py:113-132 | no two neighbouring groups are of the same person |
| Github.ShrunkMaximal | src/python/github_source/github.py:113-132 | dropping the last row keeps neighbouring groups apart |
| Github.ShrunkExpand | src/python/github_source/github.py:113-132 | the groups are their shrunk groups plus the last row |
| Github.RegrowStart | src/python/github_source/github.py:119-126 | a last group of one name is regrown by starting it |
| Github.RegrowJoin | src/python/github_source/github.py:127-128 | a last group of more names is regrown by joining it |
| Github.RunsRegrow | src/python/github_source/github.py:113-132 | grouping the rows regrows the groups from the shrunk ones |
| Github.RunsUnique | src/python/github_source/github.py:113-132 | the grouping is the only way to split the rows into runs of one person each |
| Github.Quirked | src/python/github_source/github.py:116-118 | the quirk keeps every group's person |
| Github.QuirkedRuns | src/python/github_source/github.py:116-118 | the first person's first name is searched twice; every other group is as grouped |
| Github.ExpandFirst | src/python/github_source/github.py:113-118 | the first row is the first group's first name |
| Github.SearchesSnoc | src/python/github_source/github.py:123-131 | one more group is one more search |
| Github.PendingLast | src/python/github_source/github.py:113-132 | the loop's state after all rows is the quirked groups, the last one still pending |
| Github.QuirkedStart | src/python/github_source/github.py:119-126 | a new group is appended as is by the quirk |
| Github.QuirkedJoin | src/python/github_source/github.py:127-128 | joining the last group commutes with the quirk |
| Github.PendingFirst | src/python/github_source/github.py:116-118 | the first row sets the person and appends its name twice |
| Github.PendingStart | src/python/github_source/github.py:119-126 | a row of another person closes the pending group and starts one |
| Github.PendingJoin | src/python/github_source/github.py:127-128 | a row of the same person appends its name |
| Github.Take | src/python/github_source/github.py:115-128 | after a row a person is pending with at least one name |
| Github.PendingNext | src/python/github_source/github.py:115-128 | one more row is one `Take` |
| Github.PendingStep | src/python/github_source/github.py:115-128 | row `i` is one `Take` from the state the rows before it left |
| Github.PendingShape | src/python/github_source/github.py:108-128 | no person is pending before the first row, one with names after it |
| Github.SearchesTake | src/python/github_source/github.py:119-128 | a turn searches exactly the group it closes |
| Github.TakeRow | src/python/github_source/github.py:115-128 | one turn of the loop updates the pending person and names as `Take` and searches what it closes |
| Github.FinishRows | src/python/github_source/github.py:129-132 | `StopIteration` searches the pending group, completing the quirked groups |
| Github.ProcessGithubPerson | src/python/github_source/github.py:34-132 | the person loop runs one search per quirked group, in order |
| Github.SearchesGrow | src/python/github_source/github.py:44-132 | searches only add triples and files, and send at most one request per group |
| Github.HarvestGroups | src/python/github_source/github.py:113-132 | the groups searched are the runs of one person each, expanded back to the rows, except that the first group also searches its first name first |
| Github.WriteGithubGraph | src/python/github_source/github.py:139-154 | each non-empty graph is written to its file and all three are closed |
| Github.OnlyPersonWritten | src/python/github_source/github.py:140-154 | only the person file is written when the other graphs are empty, and only when the person graph is not |
| Github.ProcessGithub | src/python/github_source/github.py:24-136 | `process_github` searches every quirked group, then writes the non-empty graphs |
| PaperWithCode.TitleOfMeaning | src/python/paper_with_code_source/paper_with_code.py:37-39 | a null title gives the empty string; a given one is never lengthened by `sanitize` and is kept as is when it has no backslash |
| PaperWithCode.RepoOn | src/python/paper_with_code_source/paper_with_code.py:51-52 | the record's Repository is on `create_uri(repo_url)` with the record's last blank |
| PaperWithCode.PaperFrom | src/python/paper_with_code_source/paper_with_code.py:53 | the record's Paper is the one built so far, with its Repository related |
| PaperWithCode.PaperOfMeaning | src/python/paper_with_code_source/paper_with_code.py:33-57 | the paper of a record is titled, links its PDF exactly when the record has one and its arXiv identifier exactly when it has an arXiv id, is related to exactly its Repository, and its projection holds the Repository's |
| PaperWithCode.TitleAndPdf | src/python/paper_with_code_source/paper_with_code.py:37-44 | `set_title` and, when given, `add_download_url`, and nothing else changes |
| PaperWithCode.AddArxiv | src/python/paper_with_code_source/paper_with_code.py:45-48 | the arXiv identifier on `create_uri(ARXIV + id)` is added exactly when the record has one, drawing one blank |
| PaperWithCode.NewRecordPaper | src/python/paper_with_code_source/paper_with_code.py:33-48 | `Paper.Builder` on the sanitized paper URL with the title, PDF link and arXiv identifier set |
| PaperWithCode.RelateRepository | src/python/paper_with_code_source/paper_with_code.py:53 | `add_related` appends the repository, and nothing else changes |
| PaperWithCode.ProjectPaper | src/python/paper_with_code_source/paper_with_code.py:56-57 | `pwc_paper_obj.to_rdf` adds exactly the paper's projection |
| PaperWithCode.ProjectRepository | src/python/paper_with_code_source/paper_with_code.py:54 | `repo_obj_obj.to_rdf` adds exactly the repository's projection |
| PaperWithCode.BuildRecord | src/python/paper_with_code_source/paper_with_code.py:33-56 | a usable record builds its Paper and its Repository, drawing the record's blanks |
| PaperWithCode.ProcessRecord | src/python/paper_with_code_source/paper_with_code.py:33-57 | the loop body projects the Repository into the code graph and the Paper into the paper graph, and nothing else |
| PaperWithCode.ProjectRecord | src/python/paper_with_code_source/paper_with_code.py:54-57 | the repository is projected into the code graph and the paper into the paper graph |
| PaperWithCode.Good | src/python/paper_with_code_source/paper_with_code.py:31-33 | the loop gets through the usable records before the first one whose paper URL is null or has no sanitized form or whose repository URL is null, and no further |
| PaperWithCode.GoodStops | src/python/paper_with_code_source/paper_with_code.py:33 | the loop stops at an unusable record only when it is the first one |
| PaperWithCode.GoodGoes | src/python/paper_with_code_source/paper_with_code.py:31-33 | the loop goes past a usable record when every record before it was usable |
| PaperWithCode.GoodAll | src/python/paper_with_code_source/paper_with_code.py:31 | the loop gets through all records only when all are usable |
| PaperWithCode.Each | src/python/paper_with_code_source/paper_with_code.py:31-57 | one entity per record |
| PaperWithCode.EachNext | src/python/paper_with_code_source/paper_with_code.py:31-57 | one more record is made on the blanks after the others' |
| PaperWithCode.EachAt | src/python/paper_with_code_source/paper_with_code.py:31-57 | the `i`-th entity is made from the `i`-th record, on the blanks after those the records before it draw |
| PaperWithCode.PapersOfAt | src/python/paper_with_code_source/paper_with_code.py:31-57 | the `i`-th Paper of the run is the Paper of the `i`-th record, on its sanitized URL |
| PaperWithCode.ReposOfAt | src/python/paper_with_code_source/paper_with_code.py:31-57 | the `i`-th Repository of the run is the Repository of the `i`-th record |
| PaperWithCode.DrawnNext | src/python/paper_with_code_source/paper_with_code.py:31-57 | one more record draws its blanks after the others' |
| PaperWithCode.WritePaperWithCodeGraph | src/python/paper_with_code_source/paper_with_code.py:63-74 | each non-empty graph is written to its file, and both are closed |
| PaperWithCode.NextRecord | src/python/paper_with_code_source/paper_with_code.py:31-59 | one more usable record keeps the loop's invariant |
| PaperWithCode.ProcessRecords | src/python/paper_with_code_source/paper_with_code.py:31-60 | the paper graph gains exactly the Papers and the code graph exactly the Repositories of the records before the first unusable one, the loop reports whether it got through them all, and `num_papers` ends counted down by the records processed |
| PaperWithCode.ProcessPaperWithCode | src/python/paper_with_code_source/paper_with_code.py:20-61 | every record in turn, then the graphs are written; a record with a null paper URL, a paper URL without a sanitized form or a null repository URL raises a TypeError, leaving the earlier records projected and nothing written |

## Left out

- Network, disk and time: HTTP requests, SPARQL `SERVICE` calls and the
  GitHub client are oracles (`Fetch.Endpoint`, a `Sparql` function); the
  cache directory is a map from file name to response (`Fetch.CacheDir`);
  JSON and Turtle parsing and serialization are the identity on values;
  `datetime.now()` values are parameters, fixed for one run.
- MD5: the hash naming cache files is an uninterpreted function of the
  request text, held by the cache directory; no lemma assumes it is
  injective, so two requests may share a file as under a real collision.
- `create_uri`'s fresh `BNode()` is a counter threaded through every
  harvester (`Rdf.BlankNodes`); harvesters take the URI minter as a
  parameter. Their contracts hold for every minter, `Utilities.CreateUri`
  among them, so what `Utilities.CreateUriMeaning` says of `create_uri`
  is not restated in any harvester's contract.
- Logging and the log messages are not modelled; the `num_papers`
  countdown of `process_paper_with_code` is kept, and the records loop
  returns its final value.
- Exceptions are values: a `Result` or an `ok` flag says which statement
  raised, and the state it leaves is the state at that point.
- Python `__hash__` is not modelled; sets are modelled under `__eq__`
  alone. `Organization.__hash__` hashes a set and would raise.
- `Software.__eq__` calls `other.creators()` on a list and would raise a
  `TypeError` whenever the inherited test holds; no harvester compares two
  Software objects, and the model compares them by the inherited rule.
- Cycles through `related`, `referenced_by`, `related_works`, `authors`,
  `affiliations` or `identifiers` cannot be expressed, since entities are
  values; the model claims nothing about cycle safety.
- Entities added to a set or list are snapshots of the object at that
  moment; the harvesters never change an object after adding it, so the
  triples agree with Python's shared references.
- HalOrganizations.ParentEntity: the parent's label is the plain text of
  `superOrgLabel`; `Literal(binding['superOrgLabel'])` keeps the SPARQL
  binding's language tag (such as `"CNRS"@fr`), which `Rdf.Literal`
  cannot express.
- HalOrganizations.EnrichedOrg: the label and the acronym are the plain
  texts of `label` and `acronym`; the language tags that
  `Literal(binding['label'])` and `Literal(binding['acronym'])` keep are
  dropped.
- HalOrganizations.ProcessHalOrganization: the label, acronym and parent
  label triples it projects are plain literals, where the source writes
  the binding's language-tagged literal; everything else about them
  (subject, predicate, text) is as the source writes it.
- The organization harvest's loading of the existing `data/rdf/organization`
  Turtle files is left out: the graph is handed in already loaded. The
  SPARQL text is a parameter, and the result rows are the query's bindings
  as values.
- The GitHub login and the loading of known people from
  `data/rdf/person` are left out: the ordered rows of the person query are
  a parameter. User records are assumed to carry every key the code reads.
- `json_encode_paginated_list` (src/python/util/utilities.py:77-85) wraps
  PyGithub's paginated list; a search result is its list of users, so
  its truncation on an exception during paging is not modelled.
- The repeated-domain rewrite of `sanitize_uri` is modelled as written,
  with the ASCII word class below, but only its no-op case is stated as a
  lemma.
- Utilities.DomainMatch: `\w` and `[\w./]` are ASCII letters, digits and `_`
  (plus `.` and `/`); Python's `re` also matches every non-ASCII letter and
  digit on `str` patterns, so "http://é.com/http://x.com" is left as it is
  where Python rewrites it to "http://x.com". Python's Unicode `isalnum`
  table is not written out.
- Utilities.LastSplit: takes its split points from the ASCII-only domain
  class, as `Utilities.DomainMatch` says.
- Utilities.RepeatedDomainAt: finds repeated domains over the ASCII-only
  domain class, so a repeated non-ASCII domain is not found.
- Utilities.RemoveRepeatedDomains: rewrites only repeated domains made of
  ASCII word characters, `.` and `/`.
- Utilities.UriMatchEnd: the fragment `(#\w*)?` takes ASCII word characters
  only, so for "http://x.org#é" the match ends just after `#` where
  Python's ends after `é`.
- Utilities.SanitizeUri: inherits the ASCII-only `\w` of the two rules
  above, so on non-ASCII fragments or domains its result can be shorter
  than Python's.
- Utilities.CreateUri: inherits `Utilities.SanitizeUri`'s ASCII-only `\w`.
- DBLP: `sparql_cached` is not part of this model and is an oracle from
  query text to result; literal datatypes are dropped (a title is its
  text); `int()` takes an optional `+` or `-` followed by ASCII digits,
  and the surrounding whitespace, `_` separators and non-ASCII digits that
  Python's `int()` also accepts are a ValueError here;
  `set(papers.values())` is listed in the dictionary's insertion order,
  where Python's set order is unspecified.
- `dblp_most_cited_articles` takes the current year as a parameter rather than
  `datetime.now().year`.
- The Papers-with-Code records are a parameter instead of the JSON file
  read from disk, and `sanitize_uri` is passed to the loop as a value.
- PaperWithCode.ProcessPaperWithCode: every record carries all five keys
  the loop reads (a missing key would raise a `KeyError`, not modelled);
  a record that raises is recognised before it draws blanks, so the blanks
  a raising record draws before its `TypeError` are not counted (nothing
  is written after the raise, so they are not observable).
- `src/dblp_source/dblp.py` (an older duplicate of the DBLP connector),
  `src/python/gitlab_source/gitlab.py`, `src/python/crossref_source/crossref.py`,
  `app.py`, `src/python/app.py` and `src/python/main.py` (thread pool and
  signal handlers) are not part of this model; `kg/CONSTANTS.py` supplies
  opaque IRIs.
