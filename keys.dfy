/** Deriving a resource key from a request URL. The worker derives keys in two
    places, and they differ: the activate handler only drops the origin, the
    fetch handler also cuts a `?v=` cache-busting query and maps root-like URLs
    to the root key. */
module Keys {

  /** The key of the site's landing document. */
  const RootKey := "/"

  /** The query marker used for cache busting. */
  const VersionQuery := "?v="

  /** `s.substring(n)` for `n >= 0`: JavaScript clamps a start past the end. */
  function Substring(s: string, n: nat): (r: string)
    ensures n <= |s| ==> |r| == |s| - n
    ensures |s| < n ==> r == ""
    ensures forall i | 0 <= i < |r| :: r[i] == s[n + i]
  {
    if n <= |s| then s[n..] else ""
  }

  predicate StartsWith(s: string, prefix: string) {
    |prefix| <= |s| && s[..|prefix|] == prefix
  }

  /** `pat` occurs in `s` at index `i`. */
  predicate OccursAt(s: string, pat: string, i: int) {
    0 <= i && i + |pat| <= |s| && s[i..i + |pat|] == pat
  }

  /** `s.indexOf(pat, from)`: the first occurrence at or after `from`, or -1. */
  function IndexOfFrom(s: string, pat: string, from: nat): (r: int)
    requires from <= |s|
    ensures r == -1 || (from <= r <= |s| && OccursAt(s, pat, r))
    ensures forall j | from <= j && (r == -1 || j < r) :: !OccursAt(s, pat, j)
    decreases |s| - from
  {
    if OccursAt(s, pat, from) then from
    else if from == |s| then -1
    else IndexOfFrom(s, pat, from + 1)
  }

  /** `s.indexOf(pat)`. */
  function IndexOf(s: string, pat: string): (r: int)
    ensures r == -1 <==> forall j :: !OccursAt(s, pat, j)
    ensures r != -1 ==> 0 <= r <= |s| && OccursAt(s, pat, r)
    ensures forall j | 0 <= j < r :: !OccursAt(s, pat, j)
  {
    IndexOfFrom(s, pat, 0)
  }

  /** `s.split(VersionQuery)[0]`: everything before the first `?v=`. */
  function CutVersion(s: string): (r: string)
    ensures StartsWith(s, r)
    ensures IndexOf(r, VersionQuery) == -1
    ensures IndexOf(s, VersionQuery) == -1 ==> r == s
    ensures IndexOf(s, VersionQuery) != -1 ==> OccursAt(s, VersionQuery, |r|)
  {
    var i := IndexOf(s, VersionQuery);
    if i == -1 then s
    else
      assert forall j :: !OccursAt(s[..i], VersionQuery, j) by {
        forall j | OccursAt(s[..i], VersionQuery, j) ensures false {
          assert s[..i][j..j + 3] == s[j..j + 3];
          assert OccursAt(s, VersionQuery, j) && j < i;
        }
      }
      s[..i]
  }

  /** The key of a cached request, as the activate handler derives it
      (flutter_service_worker.js:161-164): drop `origin + "/"`, and an
      empty rest becomes the root key. */
  function ActivateKey(origin: string, url: string): (key: string)
    ensures key != ""
    ensures key == RootKey || key == Substring(url, |origin| + 1)
  {
    var key := Substring(url, |origin| + 1);
    if key == "" then RootKey else key
  }

  /** The key of an intercepted request, as the fetch handler derives it
      (flutter_service_worker.js:200-207): drop `origin + "/"`, cut at the
      first `?v=`, and map the bare origin, `origin + "/#..."` and an empty
      rest to the root key. */
  function FetchKey(origin: string, url: string): (key: string)
    ensures key != ""
    ensures IndexOf(key, VersionQuery) == -1
    ensures key == RootKey || StartsWith(Substring(url, |origin| + 1), key)
  {
    var key := Substring(url, |origin| + 1);
    var key := if IndexOf(key, VersionQuery) != -1 then CutVersion(key) else key;
    if url == origin || StartsWith(url, origin + "/#") || key == "" then RootKey else key
  }

  /** The URL a relative resource key resolves to when the worker, served
      from the site root, builds `new Request(key)`: keys are paths relative
      to the root, and the root key itself names the root. */
  function RequestUrl(origin: string, key: string): (url: string)
    ensures StartsWith(url, origin + "/")
    ensures key != RootKey ==> Substring(url, |origin| + 1) == key
  {
    if key == RootKey then origin + "/" else origin + "/" + key
  }

  /** A key with no `?` and no leading `#` is a plain path: it holds no
      `?v=` and is no fragment. */
  lemma PlainPath(key: string)
    requires key != "" && key[0] != '#'
    requires forall i | 0 <= i < |key| :: key[i] != '?'
    ensures IndexOf(key, VersionQuery) == -1
    ensures !StartsWith(key, "#")
  {
    assert forall j | OccursAt(key, VersionQuery, j) :: key[j] == key[j..j + 3][0] == '?';
  }

  lemma SubstringAfterOrigin(origin: string, rest: string)
    ensures Substring(origin + "/" + rest, |origin| + 1) == rest
  {
  }

  /** The two derivations agree with how keys resolve to URLs: the activate
      handler recovers every non-empty key from the URL it resolves to. */
  lemma ActivateKeyOfRequestUrl(origin: string, key: string)
    requires key != ""
    ensures ActivateKey(origin, RequestUrl(origin, key)) == key
  {
  }

  /** The fetch handler recovers a key from its URL too, unless the key holds
      a `?v=` or starts with a fragment. */
  lemma FetchKeyOfRequestUrl(origin: string, key: string)
    requires key != "" && IndexOf(key, VersionQuery) == -1
    requires !StartsWith(key, "#")
    ensures FetchKey(origin, RequestUrl(origin, key)) == key
  {
  }

  /** A `?v=` token never reaches the fetch-time key: `path?v=token` and
      `path` derive the same key (flutter_service_worker.js:202-204). */
  lemma FetchKeyIgnoresVersion(origin: string, path: string, token: string)
    requires IndexOf(path, VersionQuery) == -1
    ensures FetchKey(origin, origin + "/" + path + VersionQuery + token) == FetchKey(origin, origin + "/" + path)
  {
    var rest := path + VersionQuery + token;
    var versioned := origin + "/" + rest;
    assert versioned == origin + "/" + path + VersionQuery + token;
    var plain := origin + "/" + path;
    SubstringAfterOrigin(origin, rest);
    SubstringAfterOrigin(origin, path);
    // The first `?v=` of `rest` is the one appended after `path`.
    assert OccursAt(rest, VersionQuery, |path|) by {
      assert rest[|path|..|path| + 3] == VersionQuery;
    }
    assert rest[..|path|] == path;
    assert rest[|path|] == '?';
    forall j | 0 <= j < |path| ensures !OccursAt(rest, VersionQuery, j) {
      if j + 3 <= |path| {
        assert !OccursAt(path, VersionQuery, j);
        assert rest[j..j + 3] == rest[..|path|][j..j + 3] == path[j..j + 3];
      } else if j == |path| - 1 {
        assert rest[j..j + 3][1] == rest[|path|] != VersionQuery[1];
      } else {
        assert rest[j..j + 3][2] == rest[|path|] != VersionQuery[2];
      }
    }
    assert IndexOf(rest, VersionQuery) == |path|;
    assert CutVersion(rest) == path by {
      assert rest[..|path|] == path;
    }
    assert versioned != origin && plain != origin by {
      assert |versioned| > |origin| && |plain| > |origin|;
    }
    if path != "" {
      assert StartsWith(versioned, origin + "/#") <==> StartsWith(plain, origin + "/#") by {
        assert versioned[|origin| + 1] == path[0] == plain[|origin| + 1];
        assert versioned[..|origin| + 1] == origin + "/" == plain[..|origin| + 1];
        assert (origin + "/#")[..|origin| + 1] == origin + "/";
      }
    } else {
      assert !StartsWith(versioned, origin + "/#") by {
        assert versioned[|origin| + 1] == '?';
      }
    }
  }

  /** A versioned request for a plain key derives that key. */
  lemma FetchKeyOfVersionedUrl(origin: string, key: string, token: string)
    requires key != "" && key != RootKey && IndexOf(key, VersionQuery) == -1
    requires !StartsWith(key, "#")
    ensures FetchKey(origin, origin + "/" + key + VersionQuery + token) == key
  {
    FetchKeyIgnoresVersion(origin, key, token);
    FetchKeyOfRequestUrl(origin, key);
  }

  /** Root-like URLs all derive the root key at fetch time
      (flutter_service_worker.js:205-207). */
  lemma RootLikeUrlsDeriveRoot(origin: string, fragment: string)
    ensures FetchKey(origin, origin) == RootKey
    ensures FetchKey(origin, origin + "/") == RootKey
    ensures FetchKey(origin, origin + "/#" + fragment) == RootKey
  {
  }

  /** The two derivations differ: an entry stored under `origin/?v=42`
      derives the key `?v=42` at activate time but the root key at fetch
      time. */
  lemma VersionedRootKeysDiffer(origin: string)
    ensures ActivateKey(origin, origin + "/?v=42") == "?v=42"
    ensures FetchKey(origin, origin + "/?v=42") == RootKey
  {
  }
}
