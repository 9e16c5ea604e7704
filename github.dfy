/**
 * The GitHub person harvester. For each person of the knowledge graph it
 * builds a user search from the person's known names (at most five,
 * longest first, joined with " OR ", cut to the query length limit), reads
 * the answer from a cache file named by the MD5 digest of the query or asks
 * the search API and caches what it keeps, and records one set of triples
 * per user found. The persons come as the rows of a SPARQL query over the
 * person graphs, grouped into runs of consecutive rows about one person.
 *
 * The search API is an oracle (`Fetch.Endpoint`), the cache directory a map
 * from file name to the decoded list of users (`Fetch.CacheDir`), MD5 an
 * opaque function, and `datetime.now()` a parameter.
 */
module Github {
  import opened Wrappers
  import opened Numerals
  import opened Rdf
  import opened Utilities
  import opened Fetch

  /** `max_query_length`: a longer query is cut. */
  const MAX_QUERY_LENGTH: nat := 256
  /** A query joins at most this many names. */
  const MAX_NAMES: nat := 5
  const SEPARATOR := " OR "
  /** Where searches are cached, as `<md5 of the query>.json`. */
  const USER_CACHE_DIR := "data/github/"
  const SOFTWARE_FILE := "data/rdf/software/github_Software.ttl"
  const PERSON_FILE := "data/rdf/person/github_Person.ttl"
  const ORGANIZATION_FILE := "data/rdf/organization/github_Organization.ttl"

  // ---------------------------------------------------------------------
  // The query

  /** Every name is at least as long as every name after it. */
  predicate LongestFirst(s: seq<string>)
  {
    forall i, j :: 0 <= i < j < |s| ==> |s[i]| >= |s[j]|
  }

  /** The names of `s` of length `n`, in their order in `s`. */
  function OfLength(s: seq<string>, n: nat): seq<string>
    decreases |s|
  {
    if s == [] then [] else (if |s[0]| == n then [s[0]] else []) + OfLength(s[1..], n)
  }

  lemma {:induction false} OfLengthAppend(a: seq<string>, b: seq<string>, n: nat)
    ensures OfLength(a + b, n) == OfLength(a, n) + OfLength(b, n)
    decreases |a|
  {
    if a == [] {
      assert a + b == b;
    } else {
      assert (a + b)[1..] == a[1..] + b;
      OfLengthAppend(a[1..], b, n);
    }
  }

  /** A sorted list has no name longer than its first ahead of it. */
  lemma {:induction false} OfLengthShorter(s: seq<string>, n: nat)
    requires LongestFirst(s) && (s == [] || |s[0]| < n)
    ensures OfLength(s, n) == []
    decreases |s|
  {
    if s != [] {
      OfLengthShorter(s[1..], n);
    }
  }

  /** One step of a stable insertion sort: `x` goes after every name at least as long. */
  function Insert(x: string, s: seq<string>): (r: seq<string>)
    ensures |r| == |s| + 1
    decreases |s|
  {
    if s == [] then [x]
    else if |s[0]| >= |x| then [s[0]] + Insert(x, s[1..])
    else [x] + s
  }

  /** Inserting adds `x` and loses nothing. */
  lemma {:induction false} InsertPermutes(x: string, s: seq<string>)
    ensures multiset(Insert(x, s)) == multiset(s) + multiset{x}
    decreases |s|
  {
    if s != [] && |s[0]| >= |x| {
      InsertPermutes(x, s[1..]);
      assert s == [s[0]] + s[1..];
    }
  }

  /** Inserting a name no longer than a bound keeps every name within it. */
  lemma {:induction false} InsertBound(x: string, s: seq<string>, m: nat)
    requires |x| <= m && forall i :: 0 <= i < |s| ==> |s[i]| <= m
    ensures forall i :: 0 <= i < |Insert(x, s)| ==> |Insert(x, s)[i]| <= m
    decreases |s|
  {
    if s != [] && |s[0]| >= |x| {
      InsertBound(x, s[1..], m);
    }
  }

  /** Inserting keeps the names longest first. */
  lemma {:induction false} InsertSorted(x: string, s: seq<string>)
    requires LongestFirst(s)
    ensures LongestFirst(Insert(x, s))
    decreases |s|
  {
    if s != [] && |s[0]| >= |x| {
      InsertSorted(x, s[1..]);
      InsertBound(x, s[1..], |s[0]|);
    }
  }

  /** Inserting puts `x` after the names as long as it. */
  lemma {:induction false} InsertStable(x: string, s: seq<string>, n: nat)
    requires LongestFirst(s)
    ensures OfLength(Insert(x, s), n) == OfLength(s, n) + (if |x| == n then [x] else [])
    decreases |s|
  {
    if s == [] {
    } else if |s[0]| >= |x| {
      InsertStable(x, s[1..], n);
      assert ([s[0]] + Insert(x, s[1..]))[1..] == Insert(x, s[1..]);
    } else {
      assert ([x] + s)[1..] == s;
      if |x| == n {
        OfLengthShorter(s, n);
      }
    }
  }

  /** `sorted(names, key=len, reverse=True)`: a stable sort, longest first. */
  function ByLength(names: seq<string>): (r: seq<string>)
    ensures |r| == |names|
    decreases |names|
  {
    if names == [] then []
    else Insert(names[|names| - 1], ByLength(names[..|names| - 1]))
  }

  /** The sort is a permutation of the names. */
  lemma {:induction false} ByLengthPermutes(names: seq<string>)
    ensures multiset(ByLength(names)) == multiset(names)
    decreases |names|
  {
    if names != [] {
      var init, x := names[..|names| - 1], names[|names| - 1];
      ByLengthPermutes(init);
      InsertPermutes(x, ByLength(init));
      assert names == init + [x];
    }
  }

  /** The sort puts longer names first. */
  lemma {:induction false} ByLengthSorted(names: seq<string>)
    ensures LongestFirst(ByLength(names))
    decreases |names|
  {
    if names != [] {
      ByLengthSorted(names[..|names| - 1]);
      InsertSorted(names[|names| - 1], ByLength(names[..|names| - 1]));
    }
  }

  /**
   * The sort keeps the names of each length in their order: with
   * `ByLengthSorted`, it is the stable descending sort by length.
   */
  lemma {:induction false} ByLengthStable(names: seq<string>, n: nat)
    ensures OfLength(ByLength(names), n) == OfLength(names, n)
    decreases |names|
  {
    if names != [] {
      var init, x := names[..|names| - 1], names[|names| - 1];
      var s := ByLength(init);
      assert ByLength(names) == Insert(x, s);
      ByLengthSorted(init);
      InsertStable(x, s, n);
      ByLengthStable(init, n);
      OfLengthOne(x, n);
      OfLengthSnoc(names, n);
    }
  }

  lemma {:induction false} OfLengthSnoc(names: seq<string>, n: nat)
    requires names != []
    ensures OfLength(names, n) == OfLength(names[..|names| - 1], n) + OfLength([names[|names| - 1]], n)
  {
    assert names == names[..|names| - 1] + [names[|names| - 1]];
    OfLengthAppend(names[..|names| - 1], [names[|names| - 1]], n);
  }

  lemma OfLengthOne(x: string, n: nat)
    ensures OfLength([x], n) == if |x| == n then [x] else []
  {
    assert [x][1..] == [];
  }

  /** `sorted(...)[:5]`: the names a query joins. */
  function Chosen(names: seq<string>): seq<string>
  {
    ByLength(names)[..Min(MAX_NAMES, |names|)]
  }

  /**
   * A query joins `min(5, len(names))` of the names, and no name left out
   * is longer than a name chosen.
   */
  lemma ChosenLongest(names: seq<string>)
    ensures |Chosen(names)| == Min(MAX_NAMES, |names|)
    ensures multiset(Chosen(names)) <= multiset(names)
    ensures forall x, y :: x in Chosen(names) && y in multiset(names) - multiset(Chosen(names)) ==> |x| >= |y|
  {
    var s := ByLength(names);
    var k := Min(MAX_NAMES, |names|);
    ByLengthPermutes(names);
    assert |s| == |multiset(s)| == |names|;
    ByLengthSorted(names);
    assert s == s[..k] + s[k..];
    assert multiset(s) == multiset(s[..k]) + multiset(s[k..]);
    forall x, y | x in s[..k] && y in multiset(names) - multiset(s[..k]) ensures |x| >= |y| {
      assert y in multiset(s[k..]);
      var i :| 0 <= i < k && s[i] == x;
      var j :| 0 <= j < |s[k..]| && s[k..][j] == y;
      assert s[k + j] == y;
    }
  }

  /** `" OR ".join(parts)`. */
  function Join(parts: seq<string>): (r: string)
    ensures |parts| == 1 ==> r == parts[0]
    decreases |parts|
  {
    if parts == [] then ""
    else if |parts| == 1 then parts[0]
    else Join(parts[..|parts| - 1]) + SEPARATOR + parts[|parts| - 1]
  }

  /** The total length of some names. */
  function Length(parts: seq<string>): nat
    decreases |parts|
  {
    if parts == [] then 0 else Length(parts[..|parts| - 1]) + |parts[|parts| - 1]|
  }

  /** A join is as long as its parts and one separator between each two. */
  lemma {:induction false} JoinLength(parts: seq<string>)
    requires parts != []
    ensures |Join(parts)| == Length(parts) + |SEPARATOR| * (|parts| - 1)
    decreases |parts|
  {
    if |parts| > 1 {
      JoinLength(parts[..|parts| - 1]);
    } else {
      assert parts[..0] == [];
    }
  }

  /** The joined query before the length limit. */
  function FullQuery(names: seq<string>): string
  {
    Join(Chosen(names))
  }

  /**
   * `search_for_person`'s query: the chosen names joined, and cut to its
   * first 255 characters when longer than 256.
   */
  function Query(names: seq<string>): (q: string)
  {
    var full := FullQuery(names);
    if |full| > MAX_QUERY_LENGTH then full[..MAX_QUERY_LENGTH - 1] else full
  }

  /**
   * The query is never longer than 256 characters and begins the joined
   * names; it is all of them whenever they fit.
   */
  lemma QueryBounded(names: seq<string>)
    ensures |Query(names)| <= MAX_QUERY_LENGTH
    ensures Query(names) <= FullQuery(names)
    ensures |FullQuery(names)| <= MAX_QUERY_LENGTH <==> Query(names) == FullQuery(names)
  {
  }

  // ---------------------------------------------------------------------
  // Users and their triples

  /**
   * A user as the cache stores it: the `raw_data` of a search hit, whose
   * `url` and `login` are always given and whose other fields may be null.
   */
  datatype User = User(url: string, login: string, name: Option<string>, blog: Option<string>,
                       email: Option<string>, bio: Option<string>, company: Option<string>,
                       location: Option<string>)

  /** A search answer: the reported number of users, and the users listed. */
  datatype SearchResult = SearchResult(totalCount: int, users: seq<User>)

  /**
   * The users a search keeps: none when the API reports more than
   * `github_user_results_limit` of them, all of them otherwise.
   */
  function Kept(found: SearchResult, limit: int): (users: seq<User>)
    ensures found.totalCount > limit ==> users == []
    ensures found.totalCount <= limit ==> users == found.users
  {
    if found.totalCount > limit then [] else found.users
  }

  /** `(s, p, Literal(v))` when `v` is not None, nothing otherwise. */
  function Opt(s: Term, p: Term, v: Option<string>): set<Triple>
  {
    if v.Some? then {(s, p, Str(v.value))} else {}
  }

  /** The five triples every user gets. */
  function BaseTriples(person: Term, uri: Term, u: User, now: string): set<Triple>
  {
    {(person, ADMS_IDENTIFIER, uri), (uri, RDF_TYPE, LOCAL_GITHUB_USER), (uri, PAV_IMPORTED_FROM, Str(u.url)),
     (uri, PAV_LAST_REFRESHED_ON, Str(now)), (uri, RDFS_LABEL, Str(u.login))}
  }

  /** The company as a blank organization the user is a member of, when given. */
  function CompanyTriples(uri: Term, u: User, c: nat, now: string): set<Triple>
  {
    if u.company.Some? then
      {(Blank(c), RDF_TYPE, FOAF_ORGANIZATION), (Blank(c), RDFS_LABEL, Str(u.company.value)),
       (Blank(c), PAV_IMPORTED_FROM, Str(u.url)), (Blank(c), PAV_LAST_REFRESHED_ON, Str(now)),
       (uri, FOAF_MEMBER, Blank(c))}
    else {}
  }

  /**
   * The triples about user `u` found for `person`: the user node is
   * `create_uri(url)`, falling back to blank `b`, and the company node is
   * blank `b + 1`.
   */
  function UserTriples(person: Term, u: User, b: nat, now: string, mint: Minter): set<Triple>
  {
    var uri := mint(u.url, b);
    BaseTriples(person, uri, u, now) + Opt(uri, FOAF_NAME, u.name) + Opt(uri, FOAF_HOMEPAGE, u.blog)
      + Opt(uri, FOAF_MBOX_SHA1SUM, u.email) + Opt(uri, RDFS_COMMENT, u.bio)
      + CompanyTriples(uri, u, b + 1, now) + Opt(uri, DCTERMS_COVERAGE, u.location)
  }

  /** The blank nodes one user draws: one for `create_uri`, one more for a company. */
  function UserBlanks(u: User): nat
  {
    if u.company.Some? then 2 else 1
  }

  /** The blank nodes a list of users draws. */
  function Blanks(users: seq<User>): nat
    decreases |users|
  {
    if users == [] then 0 else Blanks(users[..|users| - 1]) + UserBlanks(users[|users| - 1])
  }

  /**
   * The triples `project` gives each user in turn, each drawing its blank
   * nodes after the ones before it, from blank `b` on.
   */
  function Each(users: seq<User>, b: nat, project: (User, nat) -> set<Triple>): set<Triple>
    decreases |users|
  {
    if users == [] then {}
    else
      var init := users[..|users| - 1];
      Each(init, b, project) + project(users[|users| - 1], b + Blanks(init))
  }

  /** One more user at the end of the list draws the blanks after the others'. */
  lemma {:induction false} EachNext(users: seq<User>, i: nat, b: nat, bi: nat, project: (User, nat) -> set<Triple>)
    requires i < |users| && bi == b + Blanks(users[..i])
    ensures Each(users[..i + 1], b, project) == Each(users[..i], b, project) + project(users[i], bi)
    ensures Blanks(users[..i + 1]) == Blanks(users[..i]) + UserBlanks(users[i])
  {
    assert users[..i + 1][..i] == users[..i];
  }

  /** The triples `AddUser` records for `person`, as a function of the user and its first blank. */
  function UserOf(person: Term, now: string, mint: Minter): (User, nat) -> set<Triple>
  {
    (u: User, b: nat) => UserTriples(person, u, b, now, mint)
  }

  /** The triples about each user of a search in turn, from blank `b` on. */
  function UsersTriples(person: Term, users: seq<User>, b: nat, now: string, mint: Minter): set<Triple>
  {
    Each(users, b, UserOf(person, now, mint))
  }

  /** Every user is linked to the person and typed, labelled and dated, whatever else is null. */
  lemma UserAlways(person: Term, u: User, b: nat, now: string, mint: Minter)
    ensures var uri := mint(u.url, b);
      (person, ADMS_IDENTIFIER, uri) in UserTriples(person, u, b, now, mint)
      && (uri, RDF_TYPE, LOCAL_GITHUB_USER) in UserTriples(person, u, b, now, mint)
      && (uri, PAV_IMPORTED_FROM, Str(u.url)) in UserTriples(person, u, b, now, mint)
      && (uri, PAV_LAST_REFRESHED_ON, Str(now)) in UserTriples(person, u, b, now, mint)
      && (uri, RDFS_LABEL, Str(u.login)) in UserTriples(person, u, b, now, mint)
  {
  }

  /** A name adds the `foaf:name` triple and nothing else. */
  lemma UserName(person: Term, u: User, n: string, b: nat, now: string, mint: Minter)
    ensures UserTriples(person, u.(name := Some(n)), b, now, mint)
      == UserTriples(person, u.(name := None), b, now, mint) + {(mint(u.url, b), FOAF_NAME, Str(n))}
  {
  }

  /** A blog adds the `foaf:homepage` triple and nothing else. */
  lemma UserBlog(person: Term, u: User, n: string, b: nat, now: string, mint: Minter)
    ensures UserTriples(person, u.(blog := Some(n)), b, now, mint)
      == UserTriples(person, u.(blog := None), b, now, mint) + {(mint(u.url, b), FOAF_HOMEPAGE, Str(n))}
  {
  }

  /** An email adds the `foaf:mbox_sha1sum` triple and nothing else. */
  lemma UserEmail(person: Term, u: User, n: string, b: nat, now: string, mint: Minter)
    ensures UserTriples(person, u.(email := Some(n)), b, now, mint)
      == UserTriples(person, u.(email := None), b, now, mint) + {(mint(u.url, b), FOAF_MBOX_SHA1SUM, Str(n))}
  {
  }

  /** A bio adds the `rdfs:comment` triple and nothing else. */
  lemma UserBio(person: Term, u: User, n: string, b: nat, now: string, mint: Minter)
    ensures UserTriples(person, u.(bio := Some(n)), b, now, mint)
      == UserTriples(person, u.(bio := None), b, now, mint) + {(mint(u.url, b), RDFS_COMMENT, Str(n))}
  {
  }

  /** A location adds the `dcterms:coverage` triple and nothing else. */
  lemma UserLocation(person: Term, u: User, n: string, b: nat, now: string, mint: Minter)
    ensures UserTriples(person, u.(location := Some(n)), b, now, mint)
      == UserTriples(person, u.(location := None), b, now, mint) + {(mint(u.url, b), DCTERMS_COVERAGE, Str(n))}
  {
  }

  /**
   * A company adds a fresh blank organization, labelled, imported from the
   * user's URL and dated, with the user a member of it; nothing else.
   */
  lemma UserCompany(person: Term, u: User, n: string, b: nat, now: string, mint: Minter)
    ensures var uri, c := mint(u.url, b), Blank(b + 1);
      UserTriples(person, u.(company := Some(n)), b, now, mint)
        == UserTriples(person, u.(company := None), b, now, mint)
          + {(c, RDF_TYPE, FOAF_ORGANIZATION), (c, RDFS_LABEL, Str(n)), (c, PAV_IMPORTED_FROM, Str(u.url)),
             (c, PAV_LAST_REFRESHED_ON, Str(now)), (uri, FOAF_MEMBER, c)}
  {
  }

  /** `g.add((s, p, Literal(v)))` when `v` is not None. */
  method AddOpt(g: Graph, s: Term, p: Term, v: Option<string>)
    modifies g`triples
    ensures g.triples == old(g.triples) + Opt(s, p, v)
  {
    if v.Some? {
      g.Add((s, p, Str(v.value)));
    }
  }

  /** The five unconditional `add`s about a user. */
  method AddBase(person: Term, uri: Term, u: User, g: Graph, now: string)
    modifies g`triples
    ensures g.triples == old(g.triples) + BaseTriples(person, uri, u, now)
  {
    g.Add((person, ADMS_IDENTIFIER, uri));
    g.Add((uri, RDF_TYPE, LOCAL_GITHUB_USER));
    g.Add((uri, PAV_IMPORTED_FROM, Str(u.url)));
    g.Add((uri, PAV_LAST_REFRESHED_ON, Str(now)));
    g.Add((uri, RDFS_LABEL, Str(u.login)));
  }

  /** The company branch: a fresh blank organization when the user names a company. */
  method AddCompany(uri: Term, u: User, g: Graph, blanks: BlankNodes, now: string)
    modifies g`triples, blanks
    ensures g.triples == old(g.triples) + CompanyTriples(uri, u, old(blanks.next), now)
    ensures blanks.next == old(blanks.next) + UserBlanks(u) - 1
  {
    if u.company.Some? {
      var c := blanks.Fresh();
      var company := Blank(c);
      g.Add((company, RDF_TYPE, FOAF_ORGANIZATION));
      g.Add((company, RDFS_LABEL, Str(u.company.value)));
      g.Add((company, PAV_IMPORTED_FROM, Str(u.url)));
      g.Add((company, PAV_LAST_REFRESHED_ON, Str(now)));
      g.Add((uri, FOAF_MEMBER, company));
    }
  }

  /** Seven additions in a row add their union. */
  lemma Unions<T>(s0: set<T>, a: set<T>, b: set<T>, c: set<T>, d: set<T>, e: set<T>, f: set<T>, h: set<T>)
    ensures s0 + a + b + c + d + e + f + h == s0 + (a + b + c + d + e + f + h)
  {
  }

  /** The body of the loop over the users found: the triples about one user. */
  method AddUser(person: Term, u: User, g: Graph, blanks: BlankNodes, now: string, mint: Minter)
    modifies g`triples, blanks
    ensures g.triples == old(g.triples) + UserTriples(person, u, old(blanks.next), now, mint)
    ensures blanks.next == old(blanks.next) + UserBlanks(u)
  {
    var b := blanks.Fresh();
    var uri := mint(u.url, b);
    AddBase(person, uri, u, g, now);
    AddOpt(g, uri, FOAF_NAME, u.name);
    AddOpt(g, uri, FOAF_HOMEPAGE, u.blog);
    AddOpt(g, uri, FOAF_MBOX_SHA1SUM, u.email);
    AddOpt(g, uri, RDFS_COMMENT, u.bio);
    AddCompany(uri, u, g, blanks, now);
    AddOpt(g, uri, DCTERMS_COVERAGE, u.location);
    Unions(old(g.triples), BaseTriples(person, uri, u, now), Opt(uri, FOAF_NAME, u.name), Opt(uri, FOAF_HOMEPAGE, u.blog),
           Opt(uri, FOAF_MBOX_SHA1SUM, u.email), Opt(uri, RDFS_COMMENT, u.bio), CompanyTriples(uri, u, b + 1, now),
           Opt(uri, DCTERMS_COVERAGE, u.location));
  }

  /** `for user in user_results`: the triples about each user in turn. */
  method AddUsers(person: Term, users: seq<User>, g: Graph, blanks: BlankNodes, now: string, mint: Minter)
    modifies g`triples, blanks
    ensures g.triples == old(g.triples) + UsersTriples(person, users, old(blanks.next), now, mint)
    ensures blanks.next == old(blanks.next) + Blanks(users)
  {
    var i := 0;
    while i < |users|
      invariant 0 <= i <= |users|
      invariant g.triples == old(g.triples) + UsersTriples(person, users[..i], old(blanks.next), now, mint)
      invariant blanks.next == old(blanks.next) + Blanks(users[..i])
    {
      EachNext(users, i, old(blanks.next), blanks.next, UserOf(person, now, mint));
      AddUser(person, users[i], g, blanks, now, mint);
      i := i + 1;
    }
    assert users[..i] == users;
  }

  // ---------------------------------------------------------------------
  // One search

  /**
   * What the person harvest changes: the person graph's triples, the
   * cache directory's files, the searches sent to the API and the next
   * blank node.
   */
  datatype World = World(triples: set<Triple>, files: map<string, seq<User>>, requests: seq<string>, next: nat)

  /**
   * What stays fixed during a harvest: `github_user_results_limit`, the
   * `datetime.now()` stamp, `create_uri` and the API's answer to each query.
   */
  datatype Setting = Setting(limit: int, now: string, mint: Minter, respond: string -> SearchResult)

  /** The state of the harvest. */
  function Snap(g: Graph, cache: CacheDir<seq<User>>, api: Endpoint<SearchResult>, blanks: BlankNodes): World
    reads g, cache, api, blanks
  {
    World(g.triples, cache.files, api.requests, blanks.next)
  }

  /** The users a search for `q` yields: the cached list, or what the API answers and the limit keeps. */
  function Found(files: map<string, seq<User>>, cache: CacheDir<seq<User>>, q: string, st: Setting): seq<User>
  {
    if cache.FileName(q) in files then files[cache.FileName(q)] else Kept(st.respond(q), st.limit)
  }

  /**
   * `search_for_person(person, names)`: the query's cache file is read when
   * it exists; otherwise the API is searched once and the users kept are
   * written to that file. Each user found adds its triples.
   */
  function Search(w: World, person: Term, names: seq<string>, st: Setting, cache: CacheDir<seq<User>>): World
  {
    var q := Query(names);
    var users := Found(w.files, cache, q, st);
    var hit := cache.FileName(q) in w.files;
    World(w.triples + UsersTriples(person, users, w.next, st.now, st.mint),
          if hit then w.files else w.files[cache.FileName(q) := users],
          w.requests + (if hit then [] else [q]),
          w.next + Blanks(users))
  }

  /** `search_for_person`. */
  method SearchForPerson(person: Term, names: seq<string>, g: Graph, cache: CacheDir<seq<User>>,
                         api: Endpoint<SearchResult>, blanks: BlankNodes, st: Setting)
    requires api.respond == st.respond
    modifies g`triples, cache`files, api`requests, blanks
    ensures Snap(g, cache, api, blanks) == Search(old(Snap(g, cache, api, blanks)), person, names, st, cache)
  {
    var q := Query(names);
    var users;
    if cache.Has(q) {
      users := cache.Read(q);
    } else {
      var found := api.Get(q);
      users := Kept(found, st.limit);
      cache.Write(q, users);
    }
    AddUsers(person, users, g, blanks, st.now, st.mint);
  }

  /** A cached query sends no search and writes no file. */
  lemma SearchCached(w: World, person: Term, names: seq<string>, st: Setting, cache: CacheDir<seq<User>>)
    requires cache.FileName(Query(names)) in w.files
    ensures var w' := Search(w, person, names, st, cache);
      w'.requests == w.requests && w'.files == w.files
      && w'.triples == w.triples + UsersTriples(person, w.files[cache.FileName(Query(names))], w.next, st.now, st.mint)
  {
  }

  /**
   * An uncached query sends exactly one search; when the API reports more
   * users than the limit, an empty list is cached and no triple is added.
   */
  lemma SearchLimited(w: World, person: Term, names: seq<string>, st: Setting, cache: CacheDir<seq<User>>)
    requires cache.FileName(Query(names)) !in w.files
    ensures var w' := Search(w, person, names, st, cache);
      w'.requests == w.requests + [Query(names)]
      && (st.respond(Query(names)).totalCount > st.limit ==>
            w'.files == w.files[cache.FileName(Query(names)) := []] && w'.triples == w.triples && w'.next == w.next)
  {
    assert Blanks([]) == 0;
  }

  /**
   * A search adds triples and never removes one, never rewrites a cache
   * file, and leaves the file of its query in the directory.
   */
  lemma SearchGrows(w: World, person: Term, names: seq<string>, st: Setting, cache: CacheDir<seq<User>>)
    ensures var w' := Search(w, person, names, st, cache);
      w.triples <= w'.triples && w.next <= w'.next
      && (forall f :: f in w.files ==> f in w'.files && w'.files[f] == w.files[f])
      && cache.FileName(Query(names)) in w'.files
      && w.requests <= w'.requests
  {
  }

  /** Searching the same names again sends no second search. */
  lemma SearchAgain(w: World, person: Term, other: Term, names: seq<string>, st: Setting, cache: CacheDir<seq<User>>)
    ensures var w' := Search(w, person, names, st, cache);
      Search(w', other, names, st, cache).requests == w'.requests
  {
  }

  // ---------------------------------------------------------------------
  // Grouping the rows by person

  /** A row of the person query: a person and one of its names. */
  datatype Row = Row(person: Term, name: string)

  /** The names gathered for one search. */
  datatype Group = Group(person: Term, names: seq<string>)

  /** The rows a group stands for. */
  function RowsOf(gr: Group): (rs: seq<Row>)
    ensures |rs| == |gr.names|
    ensures forall i :: 0 <= i < |rs| ==> rs[i] == Row(gr.person, gr.names[i])
  {
    seq(|gr.names|, i requires 0 <= i < |gr.names| => Row(gr.person, gr.names[i]))
  }

  /** The rows the groups stand for, one group after the other. */
  function Expand(gs: seq<Group>): seq<Row>
    decreases |gs|
  {
    if gs == [] then [] else Expand(gs[..|gs| - 1]) + RowsOf(gs[|gs| - 1])
  }

  /** No group is empty, and two groups in a row are about different persons. */
  predicate Maximal(gs: seq<Group>)
  {
    && (forall i :: 0 <= i < |gs| ==> gs[i].names != [])
    && (forall i :: 0 < i < |gs| ==> gs[i - 1].person != gs[i].person)
  }

  /** The maximal runs of consecutive rows about one person, in row order. */
  function Runs(rows: seq<Row>): (gs: seq<Group>)
    ensures |gs| <= |rows| && (gs == [] <==> rows == [])
    decreases |rows|
  {
    if rows == [] then []
    else
      var prev := Runs(rows[..|rows| - 1]);
      var r := rows[|rows| - 1];
      if prev != [] && prev[|prev| - 1].person == r.person then
        prev[..|prev| - 1] + [Group(r.person, prev[|prev| - 1].names + [r.name])]
      else prev + [Group(r.person, [r.name])]
  }

  lemma {:induction false} ExpandSnoc(gs: seq<Group>, gr: Group)
    ensures Expand(gs + [gr]) == Expand(gs) + RowsOf(gr)
  {
    assert (gs + [gr])[..|gs|] == gs;
  }

  lemma {:induction false} RowsOfSnoc(p: Term, names: seq<string>, n: string)
    ensures RowsOf(Group(p, names + [n])) == RowsOf(Group(p, names)) + [Row(p, n)]
  {
  }

  /** A row about the last group's person, joined to it, stands at the end of the rows. */
  lemma {:induction false} ExpandJoin(prev: seq<Group>, n: string)
    requires prev != []
    ensures var k := |prev| - 1;
      Expand(prev[..k] + [Group(prev[k].person, prev[k].names + [n])]) == Expand(prev) + [Row(prev[k].person, n)]
  {
    var k := |prev| - 1;
    var last := prev[k];
    assert prev == prev[..k] + [last];
    ExpandSnoc(prev[..k], last);
    ExpandSnoc(prev[..k], Group(last.person, last.names + [n]));
    RowsOfSnoc(last.person, last.names, n);
  }

  /** A row starting a group stands at the end of the rows. */
  lemma {:induction false} ExpandStart(prev: seq<Group>, r: Row)
    ensures Expand(prev + [Group(r.person, [r.name])]) == Expand(prev) + [r]
  {
    ExpandSnoc(prev, Group(r.person, [r.name]));
  }

  /** A last row about another person than the runs before it starts a group. */
  lemma {:induction false} RunsStartOn(rows: seq<Row>, prev: seq<Group>, r: Row)
    requires rows != [] && Runs(rows[..|rows| - 1]) == prev && rows[|rows| - 1] == r
    requires prev == [] || prev[|prev| - 1].person != r.person
    ensures Runs(rows) == prev + [Group(r.person, [r.name])]
  {
  }

  /** A last row about the person of the runs' last group joins it. */
  lemma {:induction false} RunsJoinOn(rows: seq<Row>, prev: seq<Group>, r: Row)
    requires rows != [] && Runs(rows[..|rows| - 1]) == prev && rows[|rows| - 1] == r
    requires prev != [] && prev[|prev| - 1].person == r.person
    ensures Runs(rows) == prev[..|prev| - 1] + [Group(r.person, prev[|prev| - 1].names + [r.name])]
  {
  }

  /** The runs stand for the rows, in order. */
  lemma {:induction false} RunsExpand(rows: seq<Row>)
    ensures Expand(Runs(rows)) == rows
    decreases |rows|
  {
    if rows != [] {
      var init, r := rows[..|rows| - 1], rows[|rows| - 1];
      var prev := Runs(init);
      RunsExpand(init);
      assert rows == init + [r];
      if prev != [] && prev[|prev| - 1].person == r.person {
        RunsJoinOn(rows, prev, r);
        ExpandJoin(prev, r.name);
      } else {
        RunsStartOn(rows, prev, r);
        ExpandStart(prev, r);
      }
    }
  }

  /** A row about the last group's person joins that group: the groups stay maximal. */
  lemma {:induction false} MaximalJoin(prev: seq<Group>, n: string)
    requires Maximal(prev) && prev != []
    ensures var k := |prev| - 1;
      Maximal(prev[..k] + [Group(prev[k].person, prev[k].names + [n])])
  {
  }

  /** A row about another person starts a group: the groups stay maximal. */
  lemma {:induction false} MaximalStart(prev: seq<Group>, r: Row)
    requires Maximal(prev) && (prev == [] || prev[|prev| - 1].person != r.person)
    ensures Maximal(prev + [Group(r.person, [r.name])])
  {
  }

  /** The runs are maximal. */
  lemma {:induction false} RunsMaximal(rows: seq<Row>)
    ensures Maximal(Runs(rows))
    decreases |rows|
  {
    if rows != [] {
      var init, r := rows[..|rows| - 1], rows[|rows| - 1];
      var prev := Runs(init);
      RunsMaximal(init);
      if prev != [] && prev[|prev| - 1].person == r.person {
        RunsJoinOn(rows, prev, r);
        MaximalJoin(prev, r.name);
      } else {
        RunsStartOn(rows, prev, r);
        MaximalStart(prev, r);
      }
    }
  }

  /** The last row the groups stand for: the last name of the last group. */
  function LastRow(gs: seq<Group>): Row
    requires gs != [] && gs[|gs| - 1].names != []
  {
    var last := gs[|gs| - 1];
    Row(last.person, last.names[|last.names| - 1])
  }

  /** The groups without their last row: the last group loses its last name, or goes when it had one. */
  function Shrunk(gs: seq<Group>): seq<Group>
    requires gs != [] && gs[|gs| - 1].names != []
  {
    var k := |gs| - 1;
    var m := |gs[k].names| - 1;
    if m == 0 then gs[..k] else gs[..k] + [Group(gs[k].person, gs[k].names[..m])]
  }

  /** Maximal groups without their last row stay maximal. */
  lemma {:induction false} ShrunkMaximal(gs: seq<Group>)
    requires Maximal(gs) && gs != []
    ensures Maximal(Shrunk(gs))
  {
    var s, k := Shrunk(gs), |gs| - 1;
    assert |s| <= |gs|;
    assert forall i :: 0 <= i < |s| ==> s[i].person == gs[i].person;
  }

  /** Groups without their last row stand for the rows but the last. */
  lemma {:induction false} ShrunkExpand(gs: seq<Group>)
    requires gs != [] && gs[|gs| - 1].names != []
    ensures Expand(gs) == Expand(Shrunk(gs)) + [LastRow(gs)]
  {
    var k := |gs| - 1;
    var last := gs[k];
    var m := |last.names| - 1;
    assert gs == gs[..k] + [last];
    if m == 0 {
      assert last == Group(last.person, [last.names[0]]);
      ExpandStart(gs[..k], LastRow(gs));
    } else {
      var prev := gs[..k] + [Group(last.person, last.names[..m])];
      assert last.names == last.names[..m] + [last.names[m]];
      assert prev[..k] == gs[..k];
      ExpandJoin(prev, last.names[m]);
    }
  }

  /** A last group of one name, about another person than the group before it, is a run of its own. */
  lemma {:induction false} RegrowStart(gs: seq<Group>, rows: seq<Row>)
    requires gs != [] && |gs[|gs| - 1].names| == 1 && rows != []
    requires |gs| > 1 ==> gs[|gs| - 2].person != gs[|gs| - 1].person
    requires Runs(rows[..|rows| - 1]) == gs[..|gs| - 1] && rows[|rows| - 1] == LastRow(gs)
    ensures Runs(rows) == gs
  {
    var k := |gs| - 1;
    var r := LastRow(gs);
    RunsStartOn(rows, gs[..k], r);
    assert gs[k] == Group(r.person, [r.name]);
    assert gs == gs[..k] + [gs[k]];
  }

  /** A last group of several names grows from the same group without its last name. */
  lemma {:induction false} RegrowJoin(gs: seq<Group>, rows: seq<Row>, prev: seq<Group>)
    requires gs != [] && |gs[|gs| - 1].names| > 1 && rows != []
    requires prev == gs[..|gs| - 1] + [Group(gs[|gs| - 1].person, gs[|gs| - 1].names[..|gs[|gs| - 1].names| - 1])]
    requires Runs(rows[..|rows| - 1]) == prev && rows[|rows| - 1] == LastRow(gs)
    ensures Runs(rows) == gs
  {
    var k := |gs| - 1;
    var last := gs[k];
    var m := |last.names| - 1;
    var r := LastRow(gs);
    RunsJoinOn(rows, prev, r);
    assert prev[..k] == gs[..k];
    assert last.names[..m] + [r.name] == last.names;
    assert gs == gs[..k] + [last];
  }

  /** The runs of the rows but the last being the shrunk groups, the runs of all rows are the groups. */
  lemma {:induction false} RunsRegrow(gs: seq<Group>, rows: seq<Row>)
    requires gs != [] && gs[|gs| - 1].names != [] && rows != []
    requires |gs| > 1 ==> gs[|gs| - 2].person != gs[|gs| - 1].person
    requires Runs(rows[..|rows| - 1]) == Shrunk(gs) && rows[|rows| - 1] == LastRow(gs)
    ensures Runs(rows) == gs
  {
    var k := |gs| - 1;
    if |gs[k].names| == 1 {
      RegrowStart(gs, rows);
    } else {
      RegrowJoin(gs, rows, Shrunk(gs));
    }
  }

  /** A grouping of rows into maximal runs is `Runs`: there is only one. */
  lemma {:induction false} RunsUnique(gs: seq<Group>, rows: seq<Row>)
    requires Maximal(gs) && Expand(gs) == rows
    ensures gs == Runs(rows)
    decreases |rows|
  {
    if gs == [] {
      assert rows == [];
    } else {
      ShrunkMaximal(gs);
      ShrunkExpand(gs);
      var init := rows[..|rows| - 1];
      assert init == Expand(Shrunk(gs));
      RunsUnique(Shrunk(gs), init);
      assert |gs| > 1 ==> gs[|gs| - 2].person != gs[|gs| - 1].person;
      RunsRegrow(gs, rows);
    }
  }

  /**
   * The groups the loop searches for: the runs, except that the very first
   * row's name is gathered twice, once when the first person is taken up and
   * once more as a row about that same person.
   */
  function Quirked(gs: seq<Group>): (qs: seq<Group>)
    ensures |qs| == |gs|
    ensures forall j :: 0 <= j < |gs| ==> qs[j].person == gs[j].person
  {
    if gs == [] || gs[0].names == [] then gs
    else [Group(gs[0].person, [gs[0].names[0]] + gs[0].names)] + gs[1..]
  }

  /** Quirked runs differ from the runs only in the first group's names, which gain the first row's name. */
  lemma QuirkedRuns(rows: seq<Row>)
    requires rows != []
    ensures var gs, qs := Runs(rows), Quirked(Runs(rows));
      qs[1..] == gs[1..] && qs[0].person == gs[0].person == rows[0].person
      && qs[0].names == [rows[0].name] + gs[0].names
  {
    var gs := Runs(rows);
    RunsExpand(rows);
    RunsMaximal(rows);
    assert gs == [gs[0]] + gs[1..];
    ExpandFirst(gs);
  }

  lemma {:induction false} ExpandFirst(gs: seq<Group>)
    requires gs != [] && gs[0].names != []
    ensures Expand(gs) != [] && Expand(gs)[0] == Row(gs[0].person, gs[0].names[0])
    decreases |gs|
  {
    if |gs| > 1 {
      ExpandFirst(gs[..|gs| - 1]);
    }
  }

  /** `search_for_person` on each group in turn. */
  function Searches(w: World, gs: seq<Group>, st: Setting, cache: CacheDir<seq<User>>): World
    decreases |gs|
  {
    if gs == [] then w
    else
      var last := gs[|gs| - 1];
      Search(Searches(w, gs[..|gs| - 1], st, cache), last.person, last.names, st, cache)
  }

  lemma {:induction false} SearchesSnoc(w: World, gs: seq<Group>, gr: Group, st: Setting, cache: CacheDir<seq<User>>)
    ensures Searches(w, gs + [gr], st, cache) == Search(Searches(w, gs, st, cache), gr.person, gr.names, st, cache)
  {
    assert (gs + [gr])[..|gs|] == gs;
  }

  /**
   * The grouping loop's state after some rows: the person being gathered,
   * the names gathered for it, and the groups already searched for.
   */
  ghost function Pending(rows: seq<Row>): (Option<Term>, seq<string>, seq<Group>)
  {
    if rows == [] then (None, [], [])
    else
      var qs := Quirked(Runs(rows));
      var k := |qs| - 1;
      (Some(qs[k].person), qs[k].names, qs[..k])
  }

  /** At the end of the rows, the pending group, when there is one, is the last to search for. */
  lemma PendingLast(rows: seq<Row>)
    ensures var (cur, names, done) := Pending(rows);
      (cur == None <==> names == [])
      && (cur == None ==> Quirked(Runs(rows)) == done)
      && (cur.Some? ==> Quirked(Runs(rows)) == done + [Group(cur.value, names)])
  {
    if rows != [] {
      var qs := Quirked(Runs(rows));
      var k := |qs| - 1;
      RunsMaximal(rows);
      QuirkedRuns(rows);
      assert qs == qs[..k] + [qs[k]];
      if k > 0 {
        assert qs[k] == Runs(rows)[k];
      }
    }
  }

  /** A group started after the first is searched for as it is. */
  lemma {:induction false} QuirkedStart(prev: seq<Group>, gr: Group)
    requires prev != [] && prev[0].names != []
    ensures Quirked(prev + [gr]) == Quirked(prev) + [gr]
  {
    assert (prev + [gr])[0] == prev[0];
    assert (prev + [gr])[1..] == prev[1..] + [gr];
  }

  /** A name joining the last group joins it among the quirked groups too. */
  lemma {:induction false} QuirkedJoin(prev: seq<Group>, n: string)
    requires prev != [] && prev[0].names != []
    ensures var k, qs := |prev| - 1, Quirked(prev);
      Quirked(prev[..k] + [Group(prev[k].person, prev[k].names + [n])]) == qs[..k] + [Group(qs[k].person, qs[k].names + [n])]
  {
    var k, qs := |prev| - 1, Quirked(prev);
    var joined := prev[..k] + [Group(prev[k].person, prev[k].names + [n])];
    if k > 0 {
      assert joined[0] == prev[0];
      assert joined[1..] == prev[1..k] + [joined[k]];
      assert qs[..k] == [qs[0]] + prev[1..k];
    } else {
      var names := prev[0].names;
      assert joined == [Group(prev[0].person, names + [n])];
      assert (names + [n])[0] == names[0];
      assert [names[0]] + (names + [n]) == ([names[0]] + names) + [n];
    }
  }

  /** The first row is taken up with its name gathered twice. */
  lemma PendingFirst(r: Row)
    ensures Pending([r]) == (Some(r.person), [r.name, r.name], [])
  {
    assert [r][..0] == [];
    assert Runs([r]) == [Group(r.person, [r.name])];
    var qs := Quirked(Runs([r]));
    assert [r.name] + [r.name] == [r.name, r.name];
    assert qs == [Group(r.person, [r.name, r.name])];
    assert qs[..0] == [];
  }

  /** A row about another person hands the gathered names to a search and starts a new group. */
  lemma {:induction false} PendingStart(p: seq<Row>, r: Row)
    requires p != [] && Pending(p).0.value != r.person
    ensures Pending(p + [r]) == (Some(r.person), [r.name], Pending(p).2 + [Group(Pending(p).0.value, Pending(p).1)])
  {
    assert (p + [r])[..|p|] == p;
    var prev := Runs(p);
    var k := |prev| - 1;
    var qs := Quirked(prev);
    RunsMaximal(p);
    assert prev[0].names != [];
    QuirkedStart(prev, Group(r.person, [r.name]));
    assert qs == qs[..k] + [qs[k]];
    if k == 0 {
      QuirkedRuns(p);
    } else {
      assert qs[k] == prev[k];
    }
  }

  /** A row about the same person adds its name to the gathered ones. */
  lemma {:induction false} PendingJoin(p: seq<Row>, r: Row)
    requires p != [] && Pending(p).0.value == r.person
    ensures Pending(p + [r]) == (Pending(p).0, Pending(p).1 + [r.name], Pending(p).2)
  {
    assert (p + [r])[..|p|] == p;
    var prev := Runs(p);
    RunsMaximal(p);
    assert prev[0].names != [];
    QuirkedJoin(prev, r.name);
  }

  /**
   * One step of the grouping loop on its state (person, names, groups searched
   * for): the first row takes up its person and gathers its name twice; a row
   * about another person hands the gathered names to a search and starts
   * afresh; a row about the same person adds its name.
   */
  function Take(pend: (Option<Term>, seq<string>, seq<Group>), r: Row): (next: (Option<Term>, seq<string>, seq<Group>))
    ensures next.0 == Some(r.person) && next.1 != []
  {
    var (cur, names, done) := pend;
    if cur == None then (Some(r.person), names + [r.name, r.name], done)
    else if cur.value != r.person then (Some(r.person), [r.name], done + [Group(cur.value, names)])
    else (cur, names + [r.name], done)
  }

  /** The grouping loop's state follows `Take` row by row. */
  lemma {:induction false} PendingNext(p: seq<Row>, r: Row)
    ensures Pending(p + [r]) == Take(Pending(p), r)
  {
    if p == [] {
      assert p + [r] == [r];
      assert Pending(p) == (None, [], []);
      assert [] + [r.name, r.name] == [r.name, r.name];
      PendingFirst(r);
    } else if Pending(p).0.value != r.person {
      PendingStart(p, r);
    } else {
      PendingJoin(p, r);
    }
  }

  /** The grouping loop's state after row `i` is `Take` of the state before it. */
  lemma {:induction false} PendingStep(rows: seq<Row>, i: nat)
    requires i < |rows|
    ensures Pending(rows[..i + 1]) == Take(Pending(rows[..i]), rows[i])
  {
    assert rows[..i + 1] == rows[..i] + [rows[i]];
    PendingNext(rows[..i], rows[i]);
  }

  /** The loop state after no rows, and what it holds after some. */
  lemma {:induction false} PendingShape(p: seq<Row>)
    ensures Pending([]) == (None, [], [])
    ensures p != [] ==> Pending(p).0.Some? && Pending(p).1 != []
  {
    if p != [] {
      var qs := Quirked(Runs(p));
      RunsMaximal(p);
      assert Runs(p)[|qs| - 1].names != [];
    }
  }

  /** What a step of the loop does to the world: a search for the gathered names when the person changes. */
  function Stepped(w: World, cur: Option<Term>, names: seq<string>, r: Row, st: Setting, cache: CacheDir<seq<User>>): World
  {
    if cur.Some? && cur.value != r.person then Search(w, cur.value, names, st, cache) else w
  }

  /** A step of the loop on the world extends the searches by the group `Take` hands over. */
  lemma {:induction false} SearchesTake(w0: World, pend: (Option<Term>, seq<string>, seq<Group>), r: Row,
                                        w: World, st: Setting, cache: CacheDir<seq<User>>)
    requires w == Searches(w0, pend.2, st, cache)
    ensures Stepped(w, pend.0, pend.1, r, st, cache) == Searches(w0, Take(pend, r).2, st, cache)
  {
    if pend.0.Some? && pend.0.value != r.person {
      SearchesSnoc(w0, pend.2, Group(pend.0.value, pend.1), st, cache);
    }
  }

  /**
   * The body of the grouping loop for one row: it moves the person and the
   * names as `Take` does, searching for the gathered names when the person
   * changes.
   */
  method TakeRow(row: Row, cur: Option<Term>, names: seq<string>, g: Graph, cache: CacheDir<seq<User>>,
                 api: Endpoint<SearchResult>, blanks: BlankNodes, st: Setting, ghost done: seq<Group>)
    returns (cur': Option<Term>, names': seq<string>)
    requires api.respond == st.respond
    requires cur.Some? ==> names != []
    modifies g`triples, cache`files, api`requests, blanks
    ensures cur' == Take((cur, names, done), row).0 && names' == Take((cur, names, done), row).1
    ensures Snap(g, cache, api, blanks) == Stepped(old(Snap(g, cache, api, blanks)), cur, names, row, st, cache)
  {
    cur', names' := cur, names;
    if cur' == None {
      cur' := Some(row.person);
      names' := names' + [row.name];
    }
    if cur' != Some(row.person) || cur' == None {
      if |names'| > 0 {
        SearchForPerson(cur'.value, names', g, cache, api, blanks, st);
      }
      cur' := Some(row.person);
      names' := [row.name];
    } else {
      names' := names' + [row.name];
    }
  }

  /** After the loop of `process_github_person`: the names still gathered are searched for. */
  method FinishRows(rows: seq<Row>, cur: Option<Term>, names: seq<string>, g: Graph, cache: CacheDir<seq<User>>,
                    api: Endpoint<SearchResult>, blanks: BlankNodes, st: Setting, ghost w0: World)
    requires api.respond == st.respond
    requires cur == Pending(rows).0 && names == Pending(rows).1
    requires Snap(g, cache, api, blanks) == Searches(w0, Pending(rows).2, st, cache)
    modifies g`triples, cache`files, api`requests, blanks
    ensures Snap(g, cache, api, blanks) == Searches(w0, Quirked(Runs(rows)), st, cache)
  {
    PendingLast(rows);
    if |names| > 0 {
      SearchesSnoc(w0, Pending(rows).2, Group(cur.value, names), st, cache);
      SearchForPerson(cur.value, names, g, cache, api, blanks, st);
    } else {
      assert Quirked(Runs(rows)) == Pending(rows).2;
    }
  }

  /**
   * `process_github_person`'s loop over the rows of the person query: the
   * names of consecutive rows about one person are gathered and searched
   * for when the person changes and at the end of the rows.
   */
  method ProcessGithubPerson(rows: seq<Row>, g: Graph, cache: CacheDir<seq<User>>, api: Endpoint<SearchResult>,
                             blanks: BlankNodes, st: Setting)
    requires api.respond == st.respond
    modifies g`triples, cache`files, api`requests, blanks
    ensures Snap(g, cache, api, blanks) == Searches(old(Snap(g, cache, api, blanks)), Quirked(Runs(rows)), st, cache)
  {
    ghost var w0 := Snap(g, cache, api, blanks);
    assert w0 == old(Snap(g, cache, api, blanks));
    var cur: Option<Term> := None;
    var names: seq<string> := [];
    var i := 0;
    PendingShape([]);
    ghost var pend := Pending(rows[..0]);
    while i < |rows|
      invariant 0 <= i <= |rows|
      invariant pend == Pending(rows[..i])
      invariant cur == pend.0 && names == pend.1 && (cur.Some? ==> names != [])
      invariant Snap(g, cache, api, blanks) == Searches(w0, pend.2, st, cache)
    {
      var row := rows[i];
      PendingStep(rows, i);
      ghost var w := Snap(g, cache, api, blanks);
      cur, names := TakeRow(row, cur, names, g, cache, api, blanks, st, pend.2);
      SearchesTake(w0, pend, row, w, st, cache);
      pend := Take(pend, row);
      i := i + 1;
    }
    assert rows[..i] == rows;
    FinishRows(rows, cur, names, g, cache, api, blanks, st, w0);
  }

  /**
   * Searching for groups in turn only adds triples, never rewrites a cache
   * file, and sends at most one search per group.
   */
  lemma {:induction false} SearchesGrow(w: World, gs: seq<Group>, st: Setting, cache: CacheDir<seq<User>>)
    ensures var w' := Searches(w, gs, st, cache);
      w.triples <= w'.triples
      && (forall f :: f in w.files ==> f in w'.files && w'.files[f] == w.files[f])
      && w.requests <= w'.requests && |w'.requests| <= |w.requests| + |gs|
    decreases |gs|
  {
    if gs != [] {
      var last := gs[|gs| - 1];
      SearchesGrow(w, gs[..|gs| - 1], st, cache);
      SearchGrows(Searches(w, gs[..|gs| - 1], st, cache), last.person, last.names, st, cache);
    }
  }

  /**
   * The person harvest searches once per maximal run of rows about one
   * person, in row order, with the first row's name gathered twice; it
   * searches for nothing when there are no rows.
   */
  lemma HarvestGroups(rows: seq<Row>)
    ensures |Quirked(Runs(rows))| == |Runs(rows)| && (rows == [] <==> Quirked(Runs(rows)) == [])
    ensures Expand(Runs(rows)) == rows && Maximal(Runs(rows))
    ensures rows != [] ==> Quirked(Runs(rows))[0].names == [rows[0].name] + Runs(rows)[0].names
    ensures rows != [] ==> Quirked(Runs(rows))[1..] == Runs(rows)[1..]
  {
    RunsExpand(rows);
    RunsMaximal(rows);
    if rows != [] {
      QuirkedRuns(rows);
    }
  }

  // ---------------------------------------------------------------------
  // Writing the graphs

  /** The files after `write_github_graph`. */
  function GithubWritten(files: map<string, set<Triple>>, person: set<Triple>, software: set<Triple>,
                         organization: set<Triple>): map<string, set<Triple>>
  {
    WriteIf(WriteIf(WriteIf(files, PERSON_FILE, person), SOFTWARE_FILE, software), ORGANIZATION_FILE, organization)
  }

  /**
   * `write_github_graph`: the person, software and organization graphs are
   * each written to their file when not empty, and closed in any case.
   */
  method WriteGithubGraph(disk: Disk, person: Graph, software: Graph, organization: Graph)
    requires person != software && person != organization && software != organization
    modifies disk`files, person`closed, software`closed, organization`closed
    ensures person.closed && software.closed && organization.closed
    ensures disk.files == GithubWritten(old(disk.files), person.triples, software.triples, organization.triples)
  {
    disk.WriteIfNonEmpty(person, PERSON_FILE);
    disk.WriteIfNonEmpty(software, SOFTWARE_FILE);
    disk.WriteIfNonEmpty(organization, ORGANIZATION_FILE);
  }

  /**
   * With the software and organization graphs empty, as nothing fills them,
   * only the person file can be written, and it is exactly when some user
   * was found.
   */
  lemma OnlyPersonWritten(files: map<string, set<Triple>>, person: set<Triple>)
    ensures var r := GithubWritten(files, person, {}, {});
      (person != {} ==> r == files[PERSON_FILE := person]) && (person == {} ==> r == files)
  {
  }

  /**
   * `process_github`: the person harvest, then `write_github_graph`. The
   * search API client and the rows of the person query are given.
   */
  method ProcessGithub(rows: seq<Row>, person: Graph, software: Graph, organization: Graph, disk: Disk,
                       cache: CacheDir<seq<User>>, api: Endpoint<SearchResult>, blanks: BlankNodes, st: Setting)
    requires person != software && person != organization && software != organization
    requires api.respond == st.respond
    modifies person, software`closed, organization`closed, disk`files, cache`files, api`requests, blanks
    ensures var w := Searches(old(Snap(person, cache, api, blanks)), Quirked(Runs(rows)), st, cache);
      Snap(person, cache, api, blanks) == w
      && disk.files == GithubWritten(old(disk.files), w.triples, software.triples, organization.triples)
      && person.closed && software.closed && organization.closed
  {
    ProcessGithubPerson(rows, person, cache, api, blanks, st);
    WriteGithubGraph(disk, person, software, organization);
  }
}
