/**
 * What the three HAL harvesters (authors, software, organizations) share:
 * the shape of a JSON document field, a page of the HAL search API, the
 * namespaces the harvesters build URIs in, the paging arithmetic, and the
 * writing of the four HAL graphs to their files.
 */
module Hal {
  import opened Wrappers
  import opened Numerals
  import opened Rdf
  import opened Utilities
  import E = Entities

  /** A field of a JSON document: missing, `null`, or a value. */
  datatype Field<T> = Absent | Null | Present(value: T)

  /** `field in doc and doc[field] != None`. */
  predicate Given<T>(f: Field<T>) { f.Present? }

  /** `field in doc and doc[field] != None and len(doc[field]) > 0`. */
  predicate Filled<T>(f: Field<seq<T>>) { f.Present? && |f.value| > 0 }

  /** The elements a `for x in doc[field]` guarded by `Given` or `Filled` visits. */
  function Items<T>(f: Field<seq<T>>): (xs: seq<T>)
    ensures Filled(f) <==> xs != []
    ensures Given(f) ==> xs == f.value
  {
    if f.Present? then f.value else []
  }

  /** `result['response']`: the number of matches and the documents of one page. */
  datatype Page<D> = Page(numFound: nat, docs: seq<D>)

  const PAGE_SIZE: nat := 100

  const HAL_NS := "https://hal.science/"
  const HAL_AUTHOR_NS := "https://shs.hal.science/search/index/q/*/authIdHal_s/"
  const ORCID_NS := "https://orcid.org/"

  /** The number of turns of `while page * page_size < num_found: ...; page += 1`. */
  function PageCount(numFound: nat): nat
  {
    (numFound + PAGE_SIZE - 1) / PAGE_SIZE
  }

  /**
   * The loop visits exactly the pages whose first offset is below the
   * number of matches, so the pages it visits cover every match.
   */
  lemma PageCountIff(numFound: nat, page: nat)
    ensures page < PageCount(numFound) <==> page * PAGE_SIZE < numFound
    ensures numFound <= PageCount(numFound) * PAGE_SIZE
  {
  }

  /**
   * A run of digits followed by a text that does not start with a digit is
   * read back unambiguously: both parts are determined by the whole.
   */
  lemma DigitsThen(a: string, s: string, b: string, t: string)
    requires AllDigits(a) && AllDigits(b)
    requires s != [] && !IsDigit(s[0]) && t != [] && !IsDigit(t[0])
    requires a + s == b + t
    ensures a == b && s == t
  {
    if |a| < |b| {
      CharAfter(a, s, b, t);
      assert false;
    } else if |b| < |a| {
      CharAfter(b, t, a, s);
      assert false;
    }
    assert a == (a + s)[..|a|];
    assert b == (b + t)[..|b|];
  }

  /** Where the shorter prefix ends, the other text still runs its prefix. */
  lemma CharAfter(a: string, s: string, b: string, t: string)
    requires a + s == b + t && |a| < |b| && s != []
    ensures s[0] == b[|a|]
  {
    assert (a + s)[|a|] == s[0];
  }

  /**
   * Requests that differ only in the page's first offset, written between
   * a fixed head and a tail that does not start with a digit, differ from
   * page to page.
   */
  lemma PagedUrlInjective(head: string, tail: string, p: nat, q: nat)
    requires tail != [] && !IsDigit(tail[0])
    requires head + NatText(p * PAGE_SIZE) + tail == head + NatText(q * PAGE_SIZE) + tail
    ensures p == q
  {
    var a, b := NatText(p * PAGE_SIZE), NatText(q * PAGE_SIZE);
    assert (head + a + tail)[|head|..] == a + tail;
    assert (head + b + tail)[|head|..] == b + tail;
    DigitsThen(a, tail, b, tail);
    IntTextInjective(p * PAGE_SIZE, q * PAGE_SIZE);
  }

  /** `Identifier.Builder(source, uri)` with `set_retrieved_from(lit)`, built. */
  function IdentifierOf(src: E.SourceData, lit: Literal, uri: Term): E.Entity
  {
    E.Identifier(uri, {}, Text(uri), src, Some(lit), [])
  }

  /** `ns + x` for each `x` of `xs`: the texts an identifier loop hands to `create_uri`. */
  function Prefixed(ns: string, xs: seq<string>): (texts: seq<string>)
    ensures |texts| == |xs|
  {
    seq(|xs|, i requires 0 <= i < |xs| => ns + xs[i])
  }

  /** The URIs minted for each text in turn, the i-th falling back to blank `b + i`. */
  function CreatedUris(texts: seq<string>, b: nat, mint: Minter): (uris: seq<Term>)
    ensures |uris| == |texts|
  {
    seq(|texts|, i requires 0 <= i < |texts| => mint(texts[i], b + i))
  }

  /** Two runs in a row are one run over both lists of texts, the second's blanks after the first's. */
  lemma CreatedUrisAppend(a: seq<string>, c: seq<string>, b: nat, mint: Minter)
    ensures CreatedUris(a + c, b, mint) == CreatedUris(a, b, mint) + CreatedUris(c, b + |a|, mint)
  {
    var l, r := CreatedUris(a + c, b, mint), CreatedUris(a, b, mint) + CreatedUris(c, b + |a|, mint);
    forall i | 0 <= i < |l| ensures l[i] == r[i] {
      if i >= |a| {
        assert (a + c)[i] == c[i - |a|] && b + i == b + |a| + (i - |a|);
      }
    }
  }

  /** The identifiers built on `uris`, each retrieved from `lit`. */
  function IdentifiersOf(src: E.SourceData, lit: Literal, uris: seq<Term>): (ids: seq<E.Entity>)
    ensures |ids| == |uris|
  {
    seq(|uris|, i requires 0 <= i < |uris| => IdentifierOf(src, lit, uris[i]))
  }

  /** Identifiers of two lists of URIs in a row are those of both lists. */
  lemma IdentifiersAppend(src: E.SourceData, lit: Literal, u: seq<Term>, v: seq<Term>)
    ensures IdentifiersOf(src, lit, u + v) == IdentifiersOf(src, lit, u) + IdentifiersOf(src, lit, v)
  {
    var l, r := IdentifiersOf(src, lit, u + v), IdentifiersOf(src, lit, u) + IdentifiersOf(src, lit, v);
    assert forall i :: 0 <= i < |l| ==> l[i] == r[i];
  }

  /**
   * Identifier loops: `s` after `s.add(Identifier(create_uri(t)))` for
   * each text `t` of `texts` in turn.
   */
  function WithIdentifiers(s: set<E.Entity>, src: E.SourceData, lit: Literal, texts: seq<string>, b: nat, mint: Minter): set<E.Entity>
  {
    E.AddedAll(s, IdentifiersOf(src, lit, CreatedUris(texts, b, mint)), E.Insert)
  }

  /** Two identifier loops in a row are one loop over both lists of texts. */
  lemma WithIdentifiersAppend(s: set<E.Entity>, src: E.SourceData, lit: Literal, a: seq<string>, c: seq<string>, b: nat, bc: nat, mint: Minter)
    requires bc == b + |a|
    ensures WithIdentifiers(WithIdentifiers(s, src, lit, a, b, mint), src, lit, c, bc, mint)
      == WithIdentifiers(s, src, lit, a + c, b, mint)
  {
    var ua, uc := CreatedUris(a, b, mint), CreatedUris(c, bc, mint);
    CreatedUrisAppend(a, c, b, mint);
    IdentifiersAppend(src, lit, ua, uc);
    E.AddedAllAppend(s, IdentifiersOf(src, lit, ua), IdentifiersOf(src, lit, uc), E.Insert);
  }

  /** The identifier the loops build for the `i`-th text, on blank `k`, is held at their end. */
  lemma WithIdentifierHolds(s: set<E.Entity>, src: E.SourceData, lit: Literal, texts: seq<string>, b: nat, mint: Minter,
                            i: nat, k: nat)
    requires i < |texts| && k == b + i
    ensures E.Holds(WithIdentifiers(s, src, lit, texts, b, mint), IdentifierOf(src, lit, mint(texts[i], k)))
  {
    var uris := CreatedUris(texts, b, mint);
    var ids := IdentifiersOf(src, lit, uris);
    assert uris[i] == mint(texts[i], k);
    assert ids[i] == IdentifierOf(src, lit, uris[i]);
    E.InsertLaws();
    E.AddedAllHolds(s, ids, E.Insert, E.Holds, i);
  }

  /** Every identifier the loops build is held at their end, itself or as an equal one. */
  lemma WithIdentifiersHold(s: set<E.Entity>, src: E.SourceData, lit: Literal, texts: seq<string>, b: nat, mint: Minter)
    ensures forall i :: 0 <= i < |texts| ==>
      E.Holds(WithIdentifiers(s, src, lit, texts, b, mint), IdentifierOf(src, lit, mint(texts[i], b + i)))
  {
    forall i | 0 <= i < |texts| ensures E.Holds(WithIdentifiers(s, src, lit, texts, b, mint), IdentifierOf(src, lit, mint(texts[i], b + i))) {
      WithIdentifierHolds(s, src, lit, texts, b, mint, i, b + i);
    }
  }

  /** Nothing but the identifiers the loops build comes in. */
  lemma WithIdentifiersOnly(s: set<E.Entity>, src: E.SourceData, lit: Literal, texts: seq<string>, b: nat, mint: Minter)
    ensures forall y :: y in WithIdentifiers(s, src, lit, texts, b, mint) ==>
      y in s || y in IdentifiersOf(src, lit, CreatedUris(texts, b, mint))
  {
    var ids := IdentifiersOf(src, lit, CreatedUris(texts, b, mint));
    E.InsertLaws();
    forall y | y in WithIdentifiers(s, src, lit, texts, b, mint) ensures y in s || y in ids {
      E.AddedAllOnly(s, ids, E.Insert, y);
    }
  }

  /**
   * A loop over the documents of a page: the turn of each document yields
   * entities to project and draws blanks, `step(doc, b)` giving both when
   * its blanks start at `b`. The result is every entity yielded, in turn
   * order, and the number of blanks drawn.
   */
  function Turns<D>(docs: seq<D>, b: nat, step: (D, nat) -> (seq<E.Entity>, nat)): (run: (seq<E.Entity>, nat))
    decreases |docs|
  {
    if docs == [] then ([], 0)
    else
      var prev := Turns(docs[..|docs| - 1], b, step);
      var turn := step(docs[|docs| - 1], b + prev.1);
      (prev.0 + turn.0, prev.1 + turn.1)
  }

  /** One more turn appends what its document yields, its blanks after the earlier ones. */
  lemma TurnsNext<D>(docs: seq<D>, b: nat, step: (D, nat) -> (seq<E.Entity>, nat), i: nat, bi: nat)
    requires i < |docs| && bi == b + Turns(docs[..i], b, step).1
    ensures var prev := Turns(docs[..i], b, step);
      Turns(docs[..i + 1], b, step) == (prev.0 + step(docs[i], bi).0, prev.1 + step(docs[i], bi).1)
  {
    assert docs[..i + 1][..i] == docs[..i];
  }

  /** A document whose turn yields nothing and draws no blank leaves the run as it was. */
  lemma TurnsSkip<D>(docs: seq<D>, doc: D, b: nat, step: (D, nat) -> (seq<E.Entity>, nat))
    requires step(doc, b + Turns(docs, b, step).1) == ([], 0)
    ensures Turns(docs + [doc], b, step) == Turns(docs, b, step)
  {
    assert (docs + [doc])[..|docs|] == docs;
    assert Turns(docs, b, step).0 + [] == Turns(docs, b, step).0;
  }

  /**
   * What the first `k` turns yield, followed by what turn `k` yields,
   * begins what the whole loop yields; blanks only grow.
   */
  lemma {:induction false} TurnsPrefix<D>(docs: seq<D>, k: nat, b: nat, step: (D, nat) -> (seq<E.Entity>, nat))
    requires k <= |docs|
    ensures Turns(docs[..k], b, step).0 <= Turns(docs, b, step).0
    ensures Turns(docs[..k], b, step).1 <= Turns(docs, b, step).1
    decreases |docs|
  {
    if k < |docs| {
      var n := |docs| - 1;
      TurnsPrefix(docs[..n], k, b, step);
      assert docs[..n][..k] == docs[..k];
    } else {
      assert docs[..k] == docs;
    }
  }

  /** Turn `k` yields its entities at the position where the earlier turns' end. */
  lemma TurnsAt<D>(docs: seq<D>, k: nat, b: nat, step: (D, nat) -> (seq<E.Entity>, nat), j: nat)
    requires k < |docs|
    requires j < |step(docs[k], b + Turns(docs[..k], b, step).1).0|
    ensures |Turns(docs[..k], b, step).0| + j < |Turns(docs, b, step).0|
    ensures Turns(docs, b, step).0[|Turns(docs[..k], b, step).0| + j] == step(docs[k], b + Turns(docs[..k], b, step).1).0[j]
  {
    var prev := Turns(docs[..k], b, step);
    var turn := step(docs[k], b + prev.1);
    TurnsNext(docs, b, step, k, b + prev.1);
    TurnsPrefix(docs, k + 1, b, step);
    var whole := Turns(docs[..k + 1], b, step).0;
    assert whole == prev.0 + turn.0;
    assert whole[|prev.0| + j] == turn.0[j];
  }

  /** What turn `k` yields is among what the loop yields. */
  lemma TurnsMember<D>(docs: seq<D>, k: nat, b: nat, step: (D, nat) -> (seq<E.Entity>, nat), x: E.Entity)
    requires k < |docs| && x in step(docs[k], b + Turns(docs[..k], b, step).1).0
    ensures x in Turns(docs, b, step).0
  {
    var j :| 0 <= j < |step(docs[k], b + Turns(docs[..k], b, step).1).0| && step(docs[k], b + Turns(docs[..k], b, step).1).0[j] == x;
    TurnsAt(docs, k, b, step, j);
  }

  /**
   * A triple projected from what turn `k` yields, from blank `bk` on, is
   * among those projected from what the loop yields.
   */
  lemma TurnsProjected<D>(docs: seq<D>, k: nat, b: nat, bk: nat, step: (D, nat) -> (seq<E.Entity>, nat), project: E.Entity -> set<Triple>, t: Triple)
    requires k < |docs| && bk == b + Turns(docs[..k], b, step).1
    requires t in Projected(step(docs[k], bk).0, project)
    ensures t in Projected(Turns(docs, b, step).0, project)
  {
    var xs := step(docs[k], bk).0;
    ProjectedFrom(xs, project, t);
    var i :| 0 <= i < |xs| && t in project(xs[i]);
    TurnsMember(docs, k, b, step, xs[i]);
    ProjectedMember(Turns(docs, b, step).0, xs[i], project, t);
  }

  /** One more document at the end of the loop: its turn starts at blank `bd`, after the earlier ones. */
  lemma TurnsSnoc<D>(docs: seq<D>, doc: D, b: nat, bd: nat, step: (D, nat) -> (seq<E.Entity>, nat))
    requires bd == b + Turns(docs, b, step).1
    ensures Turns(docs + [doc], b, step)
      == (Turns(docs, b, step).0 + step(doc, bd).0, Turns(docs, b, step).1 + step(doc, bd).1)
  {
    assert (docs + [doc])[..|docs|] == docs;
  }

  /**
   * A graph holding what the turns so far project, to which one more turn's
   * projection is added, holds what the turns with that one project.
   */
  lemma TurnsGrow<D>(docs: seq<D>, doc: D, b: nat, bd: nat, step: (D, nat) -> (seq<E.Entity>, nat), project: E.Entity -> set<Triple>,
                     base: set<Triple>, before: set<Triple>, after: set<Triple>)
    requires bd == b + Turns(docs, b, step).1
    requires before == base + Projected(Turns(docs, b, step).0, project)
    requires after == before + Projected(step(doc, bd).0, project)
    ensures after == base + Projected(Turns(docs + [doc], b, step).0, project)
    ensures b + Turns(docs + [doc], b, step).1 == bd + step(doc, bd).1
  {
    TurnsSnoc(docs, doc, b, bd, step);
    ProjectedAppend(Turns(docs, b, step).0, step(doc, bd).0, project);
    Grow(base, Projected(Turns(docs, b, step).0, project), Projected(step(doc, bd).0, project), before, after,
         Projected(Turns(docs + [doc], b, step).0, project));
  }

  /**
   * A loop whose turns may raise: `step(doc, b)` gives the entities the
   * turn yields, the blanks it draws and whether it finished normally. The
   * loop ends at the first turn that does not; what that turn yielded
   * before raising is kept. The result is every entity yielded, the blanks
   * drawn and whether the loop finished normally.
   */
  function Attempts<D>(docs: seq<D>, b: nat, step: (D, nat) -> (seq<E.Entity>, nat, bool)): (run: (seq<E.Entity>, nat, bool))
    decreases |docs|
  {
    if docs == [] then ([], 0, true)
    else
      var prev := Attempts(docs[..|docs| - 1], b, step);
      if !prev.2 then prev
      else
        var turn := step(docs[|docs| - 1], b + prev.1);
        (prev.0 + turn.0, prev.1 + turn.1, turn.2)
  }

  /** After a turn that raised, the later documents change nothing. */
  lemma {:induction false} AttemptsStopped<D>(docs: seq<D>, k: nat, b: nat, step: (D, nat) -> (seq<E.Entity>, nat, bool))
    requires k <= |docs| && !Attempts(docs[..k], b, step).2
    ensures Attempts(docs, b, step) == Attempts(docs[..k], b, step)
    decreases |docs|
  {
    if k < |docs| {
      var n := |docs| - 1;
      assert docs[..n][..k] == docs[..k];
      AttemptsStopped(docs[..n], k, b, step);
    } else {
      assert docs[..k] == docs;
    }
  }

  /** A loop finishes normally only if every earlier part of it did. */
  lemma {:induction false} AttemptsPrefixOk<D>(docs: seq<D>, k: nat, b: nat, step: (D, nat) -> (seq<E.Entity>, nat, bool))
    requires k <= |docs| && Attempts(docs, b, step).2
    ensures Attempts(docs[..k], b, step).2
  {
    if !Attempts(docs[..k], b, step).2 {
      AttemptsStopped(docs, k, b, step);
    }
  }

  /**
   * A graph holding what the turns so far project, all of which finished
   * normally, to which one more turn's projection is added, holds what the
   * turns with that one project; the loop goes on as that turn ends.
   */
  lemma AttemptsGrow<D>(docs: seq<D>, doc: D, b: nat, bd: nat, step: (D, nat) -> (seq<E.Entity>, nat, bool), project: E.Entity -> set<Triple>,
                        base: set<Triple>, before: set<Triple>, after: set<Triple>)
    requires Attempts(docs, b, step).2 && bd == b + Attempts(docs, b, step).1
    requires before == base + Projected(Attempts(docs, b, step).0, project)
    requires after == before + Projected(step(doc, bd).0, project)
    ensures after == base + Projected(Attempts(docs + [doc], b, step).0, project)
    ensures b + Attempts(docs + [doc], b, step).1 == bd + step(doc, bd).1
    ensures Attempts(docs + [doc], b, step).2 == step(doc, bd).2
  {
    assert (docs + [doc])[..|docs|] == docs;
    var prev := Attempts(docs, b, step);
    ProjectedAppend(prev.0, step(doc, bd).0, project);
    Grow(base, Projected(prev.0, project), Projected(step(doc, bd).0, project), before, after,
         Projected(prev.0 + step(doc, bd).0, project));
  }

  /** `AttemptsGrow` for the turn of `docs[i]` in a loop over `docs`. */
  lemma AttemptsNext<D>(docs: seq<D>, i: nat, b: nat, bi: nat, step: (D, nat) -> (seq<E.Entity>, nat, bool), project: E.Entity -> set<Triple>,
                        base: set<Triple>, before: set<Triple>, after: set<Triple>)
    requires i < |docs| && Attempts(docs[..i], b, step).2 && bi == b + Attempts(docs[..i], b, step).1
    requires before == base + Projected(Attempts(docs[..i], b, step).0, project)
    requires after == before + Projected(step(docs[i], bi).0, project)
    ensures after == base + Projected(Attempts(docs[..i + 1], b, step).0, project)
    ensures b + Attempts(docs[..i + 1], b, step).1 == bi + step(docs[i], bi).1
    ensures Attempts(docs[..i + 1], b, step).2 == step(docs[i], bi).2
  {
    assert docs[..i] + [docs[i]] == docs[..i + 1];
    AttemptsGrow(docs[..i], docs[i], b, bi, step, project, base, before, after);
  }

  /**
   * A loop whose turns read the graph: `step(doc, b, g)` gives the
   * entities the turn builds against the graph `g` as it stands and the
   * blanks it draws, and their projection goes into the graph before the
   * next turn. The result is the graph after the last turn and the next
   * blank.
   */
  function GraphTurns<D>(docs: seq<D>, b: nat, base: set<Triple>, step: (D, nat, set<Triple>) -> (seq<E.Entity>, nat),
                         project: E.Entity -> set<Triple>): (run: (set<Triple>, nat))
    decreases |docs|
  {
    if docs == [] then (base, b)
    else
      var prev := GraphTurns(docs[..|docs| - 1], b, base, step, project);
      var turn := step(docs[|docs| - 1], prev.1, prev.0);
      (prev.0 + Projected(turn.0, project), prev.1 + turn.1)
  }

  /** The turn of `docs[i]` runs against the graph and blank the turns before it left. */
  lemma {:induction false} GraphTurnsNext<D>(docs: seq<D>, i: nat, b: nat, base: set<Triple>, step: (D, nat, set<Triple>) -> (seq<E.Entity>, nat),
                                             project: E.Entity -> set<Triple>)
    requires i < |docs|
    ensures var prev := GraphTurns(docs[..i], b, base, step, project);
      var turn := step(docs[i], prev.1, prev.0);
      GraphTurns(docs[..i + 1], b, base, step, project) == (prev.0 + Projected(turn.0, project), prev.1 + turn.1)
  {
    var longer := docs[..i + 1];
    assert longer[..i] == docs[..i] && longer[i] == docs[i];
  }

  /** The graph only grows: whatever it held before the loop it holds after. */
  lemma {:induction false} GraphTurnsGrows<D>(docs: seq<D>, b: nat, base: set<Triple>, step: (D, nat, set<Triple>) -> (seq<E.Entity>, nat),
                                              project: E.Entity -> set<Triple>)
    ensures base <= GraphTurns(docs, b, base, step, project).0
    decreases |docs|
  {
    if docs != [] {
      GraphTurnsGrows(docs[..|docs| - 1], b, base, step, project);
    }
  }

  /** The loop over all of `docs`: its last prefix is `docs` itself. */
  lemma GraphTurnsAll<D>(docs: seq<D>, n: nat, b: nat, base: set<Triple>, step: (D, nat, set<Triple>) -> (seq<E.Entity>, nat),
                         project: E.Entity -> set<Triple>)
    requires n == |docs|
    ensures GraphTurns(docs[..n], b, base, step, project) == GraphTurns(docs, b, base, step, project)
  {
    assert docs[..n] == docs;
  }

  /**
   * Every turn's projection stays in the graph: the graph after the loop
   * holds what the turn of `docs[i]` built against the graph the turns
   * before it left.
   */
  lemma {:induction false} GraphTurnsKeep<D>(docs: seq<D>, i: nat, b: nat, base: set<Triple>, step: (D, nat, set<Triple>) -> (seq<E.Entity>, nat),
                                             project: E.Entity -> set<Triple>)
    requires i < |docs|
    ensures var prev := GraphTurns(docs[..i], b, base, step, project);
      Projected(step(docs[i], prev.1, prev.0).0, project) <= GraphTurns(docs, b, base, step, project).0
    decreases |docs|
  {
    var n := |docs| - 1;
    if i < n {
      GraphTurnsKeep(docs[..n], i, b, base, step, project);
      assert docs[..n][..i] == docs[..i] && docs[..n][i] == docs[i];
    } else {
      assert docs[..n] == docs[..i];
    }
  }

  /** The pages a paging loop processes, each with the request it answered. */
  function Zip<D>(requests: seq<string>, pages: seq<D>): (visits: seq<(string, D)>)
    requires |requests| == |pages|
    ensures |visits| == |requests|
    ensures forall k :: 0 <= k < |visits| ==> visits[k] == (requests[k], pages[k])
  {
    seq(|requests|, k requires 0 <= k < |requests| => (requests[k], pages[k]))
  }

  /** One more page processed appends its visit. */
  lemma ZipNext<D>(requests: seq<string>, pages: seq<D>, request: string, page: D)
    requires |requests| == |pages|
    ensures Zip(requests + [request], pages + [page]) == Zip(requests, pages) + [(request, page)]
  {
  }

  const SOFTWARE_FILE := "data/rdf/software/hal_Software.ttl"
  const PERSON_FILE := "data/rdf/person/hal_Person.ttl"
  const ORGANIZATION_FILE := "data/rdf/organization/hal_Organization.ttl"
  const ARTICLE_FILE := "data/rdf/article/hal_Article.ttl"

  /**
   * `write_hal_graph`: each of the four graphs is written to its file when
   * it is not empty, and closed in any case.
   */
  method WriteHalGraph(disk: Disk, software: Graph, person: Graph, organization: Graph, article: Graph)
    requires software != person && software != organization && software != article
    requires person != organization && person != article && organization != article
    modifies disk`files, software`closed, person`closed, organization`closed, article`closed
    ensures software.closed && person.closed && organization.closed && article.closed
    ensures disk.files == Written(old(disk.files), software.triples, person.triples, organization.triples, article.triples)
  {
    disk.WriteIfNonEmpty(software, SOFTWARE_FILE);
    disk.WriteIfNonEmpty(person, PERSON_FILE);
    disk.WriteIfNonEmpty(organization, ORGANIZATION_FILE);
    disk.WriteIfNonEmpty(article, ARTICLE_FILE);
  }

  /** The files after `write_hal_graph`. */
  function Written(files: map<string, set<Triple>>, software: set<Triple>, person: set<Triple>,
                   organization: set<Triple>, article: set<Triple>): map<string, set<Triple>>
  {
    WriteIf(WriteIf(WriteIf(WriteIf(files, SOFTWARE_FILE, software), PERSON_FILE, person),
                    ORGANIZATION_FILE, organization), ARTICLE_FILE, article)
  }

  /**
   * Each non-empty graph ends up in its own file, the file of an empty
   * graph is left as it was (absent if it was absent), and a file none of
   * the graphs is written to keeps what it held.
   */
  lemma WrittenFiles(files: map<string, set<Triple>>, software: set<Triple>, person: set<Triple>,
                     organization: set<Triple>, article: set<Triple>)
    ensures var r := Written(files, software, person, organization, article);
      && (software != {} ==> r[SOFTWARE_FILE] == software)
      && (person != {} ==> r[PERSON_FILE] == person)
      && (organization != {} ==> r[ORGANIZATION_FILE] == organization)
      && (article != {} ==> r[ARTICLE_FILE] == article)
      && (software == {} ==> (SOFTWARE_FILE in r <==> SOFTWARE_FILE in files) && (SOFTWARE_FILE in files ==> r[SOFTWARE_FILE] == files[SOFTWARE_FILE]))
      && (person == {} ==> (PERSON_FILE in r <==> PERSON_FILE in files) && (PERSON_FILE in files ==> r[PERSON_FILE] == files[PERSON_FILE]))
      && (organization == {} ==> (ORGANIZATION_FILE in r <==> ORGANIZATION_FILE in files) && (ORGANIZATION_FILE in files ==> r[ORGANIZATION_FILE] == files[ORGANIZATION_FILE]))
      && (article == {} ==> (ARTICLE_FILE in r <==> ARTICLE_FILE in files) && (ARTICLE_FILE in files ==> r[ARTICLE_FILE] == files[ARTICLE_FILE]))
      && (forall n :: n in files && n !in {SOFTWARE_FILE, PERSON_FILE, ORGANIZATION_FILE, ARTICLE_FILE} ==> r[n] == files[n])
      && r.Keys <= files.Keys + {SOFTWARE_FILE, PERSON_FILE, ORGANIZATION_FILE, ARTICLE_FILE}
  {
    assert SOFTWARE_FILE[9] == 's' && PERSON_FILE[9] == 'p' && ORGANIZATION_FILE[9] == 'o' && ARTICLE_FILE[9] == 'a';
  }
}
