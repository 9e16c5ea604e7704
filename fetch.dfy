/**
 * The two ways the harvesters obtain a response: a request to a remote
 * service, and the cache-or-fetch idiom over a directory of JSON files
 * named by the MD5 digest of the request.
 *
 * The remote service is an oracle: a fixed function from request to
 * response, with a log of the requests made. MD5 is an opaque function of
 * the request text. A cache directory is a map from file name to the
 * response stored in that file.
 */
module Fetch {
  /** Requests logged after a run follow those logged before it. */
  lemma LogAppend(log: seq<string>, run: seq<string>, more: seq<string>)
    ensures log + (run + more) == (log + run) + more
  {
  }

  /** A remote service answering each request through `respond`. */
  class Endpoint<R> {
    const respond: string -> R
    var requests: seq<string>

    constructor (respond: string -> R)
      ensures this.respond == respond && requests == []
    {
      this.respond := respond;
      requests := [];
    }

    /** `requests.get(url).json()`. */
    method Get(request: string) returns (r: R)
      modifies this`requests
      ensures r == respond(request)
      ensures requests == old(requests) + [request]
    {
      r := respond(request);
      requests := requests + [request];
    }
  }

  /** A directory of cached responses: `<dir><md5(request)>.json`. */
  class CacheDir<R> {
    const dir: string
    const md5: string -> string
    var files: map<string, R>

    constructor (dir: string, md5: string -> string, files: map<string, R>)
      ensures this.dir == dir && this.md5 == md5 && this.files == files
    {
      this.dir := dir;
      this.md5 := md5;
      this.files := files;
    }

    /** The name of the file caching the response to `request`. */
    function FileName(request: string): string
    {
      dir + md5(request) + ".json"
    }

    /** `os.path.exists(FileName(request))`. */
    predicate Has(request: string)
      reads this
    {
      FileName(request) in files
    }

    /** `json.load(open(FileName(request)))`. */
    function Read(request: string): R
      requires Has(request)
      reads this
    {
      files[FileName(request)]
    }

    /** `json.dump(r, open(FileName(request), 'w'))`. */
    method Write(request: string, r: R)
      modifies this`files
      ensures files == old(files)[FileName(request) := r]
    {
      files := files[FileName(request) := r];
    }

    /**
     * Cache-or-fetch: a cached response is read and no request is made;
     * otherwise one request is made and its response is stored. A file
     * that exists is never rewritten.
     */
    method Fetch(request: string, remote: Endpoint<R>) returns (r: R)
      modifies this`files, remote`requests
      ensures r == Fetched(old(files), request, remote.respond)
      ensures files == CachedAfter(old(files), request, remote.respond)
      ensures remote.requests == old(remote.requests) + Missed(old(files), request)
    {
      if Has(request) {
        r := Read(request);
      } else {
        r := remote.Get(request);
        Write(request, r);
      }
    }

    /** The response cache-or-fetch yields from the directory `files`. */
    function Fetched(files: map<string, R>, request: string, respond: string -> R): (r: R)
      ensures FileName(request) in files ==> r == files[FileName(request)]
      ensures FileName(request) !in files ==> r == respond(request)
    {
      if FileName(request) in files then files[FileName(request)] else respond(request)
    }

    /** The directory after cache-or-fetch: only a missing file is added. */
    function CachedAfter(files: map<string, R>, request: string, respond: string -> R): (after: map<string, R>)
      ensures after.Keys == files.Keys + {FileName(request)}
      ensures after[FileName(request)] == Fetched(files, request, respond)
    {
      if FileName(request) in files then files else files[FileName(request) := respond(request)]
    }

    /** Cache-or-fetch never rewrites a file the directory holds. */
    lemma CachedAfterKeeps(files: map<string, R>, request: string, respond: string -> R, name: string)
      requires name in files
      ensures name in CachedAfter(files, request, respond) && CachedAfter(files, request, respond)[name] == files[name]
    {
    }

    /**
     * Cache-or-fetch of each request in turn, from the directory `files`:
     * the responses, the directory afterwards and the requests sent.
     */
    function FetchAll(files: map<string, R>, requests: seq<string>, respond: string -> R): (run: (seq<R>, map<string, R>, seq<string>))
      ensures |run.0| == |requests| && |run.2| <= |requests|
      decreases |requests|
    {
      if requests == [] then ([], files, [])
      else
        var prev := FetchAll(files, requests[..|requests| - 1], respond);
        var last := requests[|requests| - 1];
        (prev.0 + [Fetched(prev.1, last, respond)], CachedAfter(prev.1, last, respond), prev.2 + Missed(prev.1, last))
    }

    /** One more request at the end of a run is cache-or-fetch from the directory the run leaves. */
    lemma FetchAllNext(files: map<string, R>, requests: seq<string>, request: string, respond: string -> R)
      ensures var prev := FetchAll(files, requests, respond);
        FetchAll(files, requests + [request], respond)
          == (prev.0 + [Fetched(prev.1, request, respond)], CachedAfter(prev.1, request, respond), prev.2 + Missed(prev.1, request))
    {
      assert (requests + [request])[..|requests|] == requests;
    }

    /**
     * The `i`-th response of a run is what cache-or-fetch of the `i`-th
     * request gives from the directory the earlier requests left.
     */
    lemma {:induction false} FetchAllAt(files: map<string, R>, requests: seq<string>, respond: string -> R, i: nat)
      requires i < |requests|
      ensures FetchAll(files, requests, respond).0[i] == Fetched(FetchAll(files, requests[..i], respond).1, requests[i], respond)
      decreases |requests|
    {
      var n := |requests| - 1;
      if i < n {
        FetchAllAt(files, requests[..n], respond, i);
        assert requests[..n][..i] == requests[..i];
      } else {
        assert requests[..n] == requests[..i];
      }
    }

    /** The names of the files caching the responses to `requests`. */
    function Names(requests: seq<string>): (names: set<string>)
      ensures forall i :: 0 <= i < |requests| ==> FileName(requests[i]) in names
      ensures forall name :: name in names ==> exists i :: 0 <= i < |requests| && name == FileName(requests[i])
      decreases |requests|
    {
      if requests == [] then {}
      else Names(requests[..|requests| - 1]) + {FileName(requests[|requests| - 1])}
    }

    /** After a run the directory holds the files it held and one file per request. */
    lemma {:induction false} FetchAllNames(files: map<string, R>, requests: seq<string>, respond: string -> R)
      ensures FetchAll(files, requests, respond).1.Keys == files.Keys + Names(requests)
      decreases |requests|
    {
      if requests != [] {
        FetchAllNames(files, requests[..|requests| - 1], respond);
      }
    }

    /** A run never rewrites a file the directory held. */
    lemma {:induction false} FetchAllKeeps(files: map<string, R>, requests: seq<string>, respond: string -> R, name: string)
      requires name in files
      ensures name in FetchAll(files, requests, respond).1 && FetchAll(files, requests, respond).1[name] == files[name]
      decreases |requests|
    {
      if requests != [] {
        var prev := FetchAll(files, requests[..|requests| - 1], respond);
        FetchAllKeeps(files, requests[..|requests| - 1], respond, name);
        CachedAfterKeeps(prev.1, requests[|requests| - 1], respond, name);
      }
    }

    /** The requests cache-or-fetch makes: one on a miss, none on a hit. */
    function Missed(files: map<string, R>, request: string): (rs: seq<string>)
      ensures |rs| <= 1
      ensures rs == [] <==> FileName(request) in files
    {
      if FileName(request) in files then [] else [request]
    }
  }
}
