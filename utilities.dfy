/**
 * The URI helpers of util/utilities.py: `sanitize_uri` (a repeated-domain
 * rewrite followed by an anchored URI match), `sanitize` (escape removal)
 * and `create_uri` (a URIRef of the sanitized text, or a fresh blank node).
 * The regular expressions are written out as the scans they perform.
 */
module Utilities {
  import opened Wrappers
  import opened Rdf

  /** Python's `\s` on str: the characters for which `str.isspace()` holds. */
  predicate IsSpace(c: char)
  {
    c == ' ' || '\t' <= c <= '\r' || '\U{1C}' <= c <= '\U{1F}' || c == '\U{85}' || c == '\U{A0}'
    || c == '\U{1680}' || '\U{2000}' <= c <= '\U{200A}' || c == '\U{2028}' || c == '\U{2029}'
    || c == '\U{202F}' || c == '\U{205F}' || c == '\U{3000}'
  }

  /** `\w`, restricted to ASCII letters, digits and the underscore. */
  predicate IsWord(c: char)
  {
    'a' <= c <= 'z' || 'A' <= c <= 'Z' || '0' <= c <= '9' || c == '_'
  }

  predicate IsHex(c: char)
  {
    '0' <= c <= '9' || 'a' <= c <= 'f' || 'A' <= c <= 'F'
  }

  /** The character classes the two patterns repeat. */
  datatype CharClass =
    | SchemeChar      // [^:/?#\s]
    | AuthorityChar   // [^/?#\s]
    | PathChar        // [^?#\s=]
    | QueryChar       // [^#\s]
    | FragmentChar    // \w
    | DomainChar      // [\w./]
    | HexDigit        // [0-9A-Fa-f]

  predicate InClass(k: CharClass, c: char)
  {
    match k
    case SchemeChar => c != ':' && c != '/' && c != '?' && c != '#' && !IsSpace(c)
    case AuthorityChar => c != '/' && c != '?' && c != '#' && !IsSpace(c)
    case PathChar => c != '?' && c != '#' && c != '=' && !IsSpace(c)
    case QueryChar => c != '#' && !IsSpace(c)
    case FragmentChar => IsWord(c)
    case DomainChar => IsWord(c) || c == '.' || c == '/'
    case HexDigit => IsHex(c)
  }

  /** Length of the longest prefix of `s` in class `k` (a greedy `[...]*`). */
  function Run(k: CharClass, s: string): (n: nat)
    ensures n <= |s|
    ensures forall i :: 0 <= i < n ==> InClass(k, s[i])
    ensures n < |s| ==> !InClass(k, s[n])
  {
    if s == [] || !InClass(k, s[0]) then 0 else 1 + Run(k, s[1..])
  }

  // ---------------------------------------------------------------------
  // The rewrite  re.sub(r"(https?://[\w./]+)(https?://[\w./]+)", r"\2", s)

  /** Length of a leading `https?://` (the `s?` is greedy), or 0. */
  function SchemePrefix(s: string): (n: nat)
    ensures n == 0 || n == 7 || n == 8
    ensures n <= |s|
  {
    if |s| >= 7 && s[0] == 'h' && s[1] == 't' && s[2] == 't' && s[3] == 'p' then
      if s[4] == 's' && |s| >= 8 && s[5] == ':' && s[6] == '/' && s[7] == '/' then 8
      else if s[4] == ':' && s[5] == '/' && s[6] == '/' then 7
      else 0
    else 0
  }

  /** Length of the match of `https?://[\w./]+` at the start of `s` (the run is greedy), or 0. */
  function DomainMatch(s: string): (n: nat)
    ensures n <= |s|
    ensures n > 0 ==> SchemePrefix(s) > 0
  {
    var p := SchemePrefix(s);
    if p == 0 then 0
    else
      var r := Run(DomainChar, s[p..]);
      if r == 0 then 0 else p + r
  }

  /** A second `https?://[\w./]+` starts at offset `q` of `s`. */
  predicate SecondAt(s: string, q: nat)
  {
    q <= |s| && DomainMatch(s[q..]) > 0
  }

  /**
   * Backtracking of a greedy group: the largest `l` in [1, hi] for which
   * the rest of the pattern matches at offset `p + l`.
   */
  function LastSplit(rest: nat -> bool, p: nat, hi: nat): (r: Option<nat>)
    ensures r.Some? ==> 1 <= r.value <= hi && rest(p + r.value)
    ensures r.None? ==> forall q: nat :: p < q <= p + hi ==> !rest(q)
    decreases hi
  {
    if hi == 0 then None
    else if rest(p + hi) then Some(hi)
    else LastSplit(rest, p, hi - 1)
  }

  /** The split the backtracking settles on is the last one possible. */
  lemma {:induction false} LastSplitIsLast(rest: nat -> bool, p: nat, hi: nat, l: nat)
    requires 1 <= l <= hi && rest(p + l)
    ensures LastSplit(rest, p, hi).Some? && l <= LastSplit(rest, p, hi).value
    decreases hi
  {
    if !rest(p + hi) {
      LastSplitIsLast(rest, p, hi - 1, l);
    }
  }

  /**
   * A match of the repeated-domain pattern anchored at the start of `s`:
   * the offset where the second group starts and the end of the match.
   */
  function RepeatedDomainAt(s: string): (m: Option<(nat, nat)>)
    ensures m.Some? ==> 0 < m.value.0 < m.value.1 <= |s|
    ensures m.Some? ==> SchemePrefix(s) > 0 && SchemePrefix(s[m.value.0..]) > 0
  {
    var p := SchemePrefix(s);
    if p == 0 then None
    else
      match LastSplit((q: nat) => SecondAt(s, q), p, Run(DomainChar, s[p..]))
      case None => None
      case Some(l) => Some((p + l, p + l + DomainMatch(s[p + l..])))
  }

  /** The rewrite: scan left to right, replacing each match by its second group. */
  function RemoveRepeatedDomains(s: string): (r: string)
    ensures |r| <= |s|
    decreases |s|
  {
    if s == [] then []
    else
      match RepeatedDomainAt(s)
      case Some((g2, end)) => s[g2..end] + RemoveRepeatedDomains(s[end..])
      case None => [s[0]] + RemoveRepeatedDomains(s[1..])
  }

  /** Number of offsets at which `http://` or `https://` starts. */
  function SchemeCount(s: string): nat
  {
    if s == [] then 0 else (if SchemePrefix(s) > 0 then 1 else 0) + SchemeCount(s[1..])
  }

  lemma {:induction false} SchemeCountAt(s: string, k: nat)
    requires k < |s| && SchemePrefix(s[k..]) > 0
    ensures SchemeCount(s) >= 1
  {
    if k > 0 {
      assert s[1..][k - 1..] == s[k..];
      SchemeCountAt(s[1..], k - 1);
    } else {
      assert s[0..] == s;
    }
  }

  /** A match of the rewrite needs two scheme occurrences. */
  lemma RepeatedDomainNeedsTwo(s: string)
    requires RepeatedDomainAt(s).Some?
    ensures SchemeCount(s) >= 2
  {
    var g2 := RepeatedDomainAt(s).value.0;
    assert s[1..][g2 - 1..] == s[g2..];
    SchemeCountAt(s[1..], g2 - 1);
  }

  /** The rewrite is the identity on strings with fewer than two `http://`/`https://`. */
  lemma {:induction false} RemoveRepeatedDomainsNoOp(s: string)
    requires SchemeCount(s) < 2
    ensures RemoveRepeatedDomains(s) == s
    decreases |s|
  {
    if s != [] {
      if RepeatedDomainAt(s).Some? {
        RepeatedDomainNeedsTwo(s);
        assert false;
      }
      RemoveRepeatedDomainsNoOp(s[1..]);
      assert [s[0]] + s[1..] == s;
    }
  }

  // ---------------------------------------------------------------------
  // The anchored match
  //   ^((([^:/?#\s]+):)(\/\/([^/?#\s]*))?([^?#\s=]*)(\?([^#\s]*))?(#(\w*))?)

  /** `t[from..to]` holds no whitespace. */
  predicate NoSpaceIn(t: string, from: nat, to: nat)
    requires from <= to <= |t|
  {
    forall i :: from <= i < to ==> !IsSpace(t[i])
  }

  predicate NoSpace(t: string)
  {
    NoSpaceIn(t, 0, |t|)
  }

  /** End of the greedy run of class `k` starting at offset `from` of `t`. */
  function SkipRun(k: CharClass, t: string, from: nat): (to: nat)
    requires from <= |t|
    ensures from <= to <= |t|
    ensures forall i :: from <= i < to ==> InClass(k, t[i])
    ensures to < |t| ==> !InClass(k, t[to])
  {
    var n := Run(k, t[from..]);
    assert forall i :: from <= i < from + n ==> t[i] == t[from..][i - from];
    from + n
  }

  /** An optional group `lead` followed by a run of class `k`, at offset `from`. */
  function SkipGroup(lead: string, k: CharClass, t: string, from: nat): (to: nat)
    requires from <= |t|
    requires forall i :: 0 <= i < |lead| ==> !IsSpace(lead[i])
    requires k != HexDigit
    ensures from <= to <= |t|
    ensures NoSpaceIn(t, from, to)
  {
    if from + |lead| <= |t| && t[from..from + |lead|] == lead then
      assert forall i :: from <= i < from + |lead| ==> t[i] == lead[i - from];
      SkipRun(k, t, from + |lead|)
    else from
  }

  /** End of the match of the URI pattern at the start of `t`, if it matches. */
  function UriMatchEnd(t: string): (e: Option<nat>)
    ensures e.Some? ==> e.value <= |t| && NoSpaceIn(t, 0, e.value)
  {
    var k := SkipRun(SchemeChar, t, 0);
    if k == 0 || k == |t| || t[k] != ':' then None
    else
      var b := SkipGroup("//", AuthorityChar, t, k + 1);
      var c := SkipRun(PathChar, t, b);
      var d := SkipGroup("?", QueryChar, t, c);
      var e := SkipGroup("#", FragmentChar, t, d);
      Some(e)
  }

  /** `t` begins with one or more characters outside `:/?#` and whitespace, then `:`. */
  predicate StartsWithScheme(t: string)
  {
    exists k :: 1 <= k < |t| && t[k] == ':' && forall j :: 0 <= j < k ==> InClass(SchemeChar, t[j])
  }

  lemma NoMatchNoScheme(t: string)
    requires UriMatchEnd(t).None?
    ensures !StartsWithScheme(t)
  {
  }

  lemma MatchStartsWithScheme(t: string)
    requires UriMatchEnd(t).Some?
    ensures StartsWithScheme(t[..UriMatchEnd(t).value])
  {
    var k := SkipRun(SchemeChar, t, 0);
    var m := t[..UriMatchEnd(t).value];
    assert m[k] == ':';
  }

  /**
   * `sanitize_uri(s)`: None exactly when the rewritten text does not start
   * with a scheme and `:`; otherwise a whitespace-free prefix of the
   * rewritten text that itself starts with a scheme and `:`.
   */
  function SanitizeUri(s: string): (r: Option<string>)
    ensures r.None? <==> !StartsWithScheme(RemoveRepeatedDomains(s))
    ensures r.Some? ==> r.value <= RemoveRepeatedDomains(s)
    ensures r.Some? ==> StartsWithScheme(r.value) && NoSpace(r.value)
  {
    var t := RemoveRepeatedDomains(s);
    match UriMatchEnd(t)
    case None =>
      NoMatchNoScheme(t);
      None
    case Some(e) =>
      MatchStartsWithScheme(t);
      Some(t[..e])
  }

  // ---------------------------------------------------------------------
  // re.sub(r"\\[ux][0-9A-Fa-f]+", '', s)

  /** An escape starts at offset `i`: a backslash, `u` or `x`, then a hex digit. */
  predicate EscapeAt(s: string, i: nat)
  {
    i + 2 < |s| && s[i] == '\\' && (s[i + 1] == 'u' || s[i + 1] == 'x') && IsHex(s[i + 2])
  }

  /** Length of the escape at the start of `s` (the hex run is greedy). */
  function EscapeLength(s: string): (n: nat)
    requires EscapeAt(s, 0)
    ensures 3 <= n <= |s|
  {
    2 + Run(HexDigit, s[2..])
  }

  /** `sanitize(s)`: deletes every escape, scanning left to right. */
  function Sanitize(s: string): (r: string)
    ensures |r| <= |s|
    ensures (forall i :: 0 <= i < |s| ==> s[i] != '\\') ==> r == s
    decreases |s|
  {
    if s == [] then []
    else if EscapeAt(s, 0) then Sanitize(s[EscapeLength(s)..])
    else [s[0]] + Sanitize(s[1..])
  }

  /** The output is shorter than the input exactly when the input holds an escape. */
  lemma {:induction false} SanitizeShortensIff(s: string)
    ensures |Sanitize(s)| < |s| <==> exists i: nat :: EscapeAt(s, i)
    decreases |s|
  {
    if s != [] {
      if EscapeAt(s, 0) {
        assert |Sanitize(s[EscapeLength(s)..])| <= |s| - 3;
      } else {
        SanitizeShortensIff(s[1..]);
        if exists i: nat :: EscapeAt(s[1..], i) {
          var i: nat :| EscapeAt(s[1..], i);
          assert EscapeAt(s, i + 1);
        }
        if exists i: nat :: EscapeAt(s, i) {
          var i: nat :| EscapeAt(s, i);
          assert i > 0;
          assert EscapeAt(s[1..], i - 1);
        }
      }
    }
  }

  /** `sanitize` leaves its input unchanged exactly when it holds no escape. */
  lemma SanitizeUnchangedIff(s: string)
    ensures Sanitize(s) == s <==> !exists i: nat :: EscapeAt(s, i)
  {
    SanitizeShortensIff(s);
    if !exists i: nat :: EscapeAt(s, i) {
      SanitizeKeepsPlain(s);
    }
  }

  lemma {:induction false} SanitizeKeepsPlain(s: string)
    requires !exists i: nat :: EscapeAt(s, i)
    ensures Sanitize(s) == s
    decreases |s|
  {
    if s != [] {
      assert !EscapeAt(s, 0);
      forall i: nat | EscapeAt(s[1..], i) ensures false {
        assert EscapeAt(s, i + 1);
      }
      SanitizeKeepsPlain(s[1..]);
      assert [s[0]] + s[1..] == s;
    }
  }

  // ---------------------------------------------------------------------

  /**
   * `create_uri`, as the harvesters receive it: a URI for a text, or the
   * fresh blank node it is handed. The harvesters' contracts hold for
   * every minting function, `Utilities.CreateUri` among them.
   */
  type Minter = (string, nat) -> Term

  /**
   * `create_uri(s)`: a URIRef of `sanitize_uri(s)`, or the fresh blank node
   * `Blank(blank)` when `sanitize_uri` gives None.
   */
  function CreateUri(s: string, blank: nat): (t: Term)
    ensures !t.Lit?
    ensures t.Blank? ==> t.id == blank
  {
    match SanitizeUri(s)
    case None => Blank(blank)
    case Some(u) => Iri(u)
  }

  /**
   * `create_uri` gives a blank node exactly when `sanitize_uri` gives None,
   * and otherwise a non-empty, whitespace-free URI that starts with a
   * scheme and `:`.
   */
  lemma CreateUriMeaning(s: string, blank: nat)
    ensures var t := CreateUri(s, blank);
      && (t.Blank? <==> !StartsWithScheme(RemoveRepeatedDomains(s)))
      && (t.Iri? ==> SanitizeUri(s) == Some(t.iri))
      && (t.Iri? ==> t.iri != [] && NoSpace(t.iri) && StartsWithScheme(t.iri))
  {
  }

  /** A text without `:` holds no `http://` or `https://`. */
  lemma {:induction false} NoSchemeWithoutColon(s: string)
    requires forall i :: 0 <= i < |s| ==> s[i] != ':'
    ensures SchemeCount(s) == 0
  {
    if s != [] {
      assert SchemePrefix(s) == 0;
      NoSchemeWithoutColon(s[1..]);
    }
  }

  /**
   * `create_uri` of a text without `:` (the text of a blank node, say) is
   * the fresh blank node: such a text has no scheme.
   */
  lemma CreateUriWithoutColon(s: string, blank: nat)
    requires forall i :: 0 <= i < |s| ==> s[i] != ':'
    ensures CreateUri(s, blank) == Blank(blank)
  {
    NoSchemeWithoutColon(s);
    RemoveRepeatedDomainsNoOp(s);
  }

  /** `create_uri` of a blank node's name is the fresh blank node. */
  lemma BlankNameUri(b: nat, blank: nat)
    ensures CreateUri(Text(Blank(b)), blank) == Blank(blank)
  {
    var s := Text(Blank(b));
    assert forall i :: 0 <= i < |s| ==> s[i] != ':' by {
      forall i | 0 <= i < |s| ensures s[i] != ':' {
        if i > 0 {
          assert '0' <= s[i] <= '9';
        }
      }
    }
    CreateUriWithoutColon(s, blank);
  }
}
