/** The two HTTP requests main.go builds for the scanning service: ordering a
    scan of a registry image (`orderScan`) and uploading a saved image
    (`uploadDockerImage`), together with the configuration they read and the
    image-name sanitisation of the upload path (`formatImageName`). Sending the
    request and decoding the reply are outside the model. */
module Requests {
  import opened Strings

  /** main.go's `config`: three values from the configuration file and three
      command-line flags. */
  datatype Config = Config(
    group: string,
    apiEndpoint: string,
    token: string,
    image: string,
    remote: bool,
    help: bool)

  type byte = b: int | 0 <= b < 256

  datatype HttpMethod = Post | Put

  /** The fetch request has no body; the upload request carries the image
      tarball. */
  datatype Body = NoBody | Tarball(bytes: seq<byte>)

  datatype Request = Request(verb: HttpMethod, url: string, headers: map<string, string>, body: Body)

  /** The characters that may not appear in the upload path segment. */
  predicate Forbidden(c: char)
  {
    c == '.' || c == '/' || c == '\\' || c == ':'
  }

  /** `formatImageName`: the four `ReplaceAll` calls in the source's order.
      Every forbidden character becomes `_`, every other character stays, so
      the result has the input's length and no forbidden character. */
  function FormatImageName(s: string): (r: string)
    ensures |r| == |s|
    ensures forall k :: 0 <= k < |s| ==> r[k] == (if Forbidden(s[k]) then '_' else s[k])
    ensures forall k :: 0 <= k < |r| ==> !Forbidden(r[k])
  {
    var dots := ReplaceAll(s, '.', '_');
    var slashes := ReplaceAll(dots, '/', '_');
    var backslashes := ReplaceAll(slashes, '\\', '_');
    ReplaceAll(backslashes, ':', '_')
  }

  /** Sanitising a sanitised name changes nothing. */
  lemma FormatIdempotent(s: string)
    ensures FormatImageName(FormatImageName(s)) == FormatImageName(s)
  {
  }

  /** Replacing each character of `froms` by `to`, one `ReplaceAll` after
      another in the order `froms` lists them. */
  function ReplaceEach(s: string, froms: seq<char>, to: char): string
    decreases |froms|
  {
    if |froms| == 0 then s
    else ReplaceEach(ReplaceAll(s, froms[0], to), froms[1..], to)
  }

  /** A chain of replacements that all write the same character replaces
      exactly the characters that occur in the chain, whatever their order. */
  lemma {:induction false} ReplaceEachPointwise(s: string, froms: seq<char>, to: char)
    ensures |ReplaceEach(s, froms, to)| == |s|
    ensures forall k :: 0 <= k < |s| ==>
      ReplaceEach(s, froms, to)[k] == (if s[k] in froms then to else s[k])
    decreases |froms|
  {
    if |froms| > 0 {
      var t := ReplaceAll(s, froms[0], to);
      ReplaceEachPointwise(t, froms[1..], to);
      forall k | 0 <= k < |s|
        ensures ReplaceEach(s, froms, to)[k] == (if s[k] in froms then to else s[k])
      {
        assert s[k] in froms <==> s[k] == froms[0] || s[k] in froms[1..] by {
          assert froms == [froms[0]] + froms[1..];
        }
      }
    }
  }

  /** The order of the four replacements does not matter: any sequence
      listing exactly the four forbidden characters gives the same name. */
  lemma ReplacementOrderIrrelevant(s: string, froms: seq<char>)
    requires forall c :: c in froms <==> Forbidden(c)
    ensures ReplaceEach(s, froms, '_') == FormatImageName(s)
  {
    ReplaceEachPointwise(s, froms, '_');
  }

  /** The source's own order is one such sequence. */
  lemma SourceOrder(s: string)
    ensures FormatImageName(s) == ReplaceEach(s, ['.', '/', '\\', ':'], '_')
  {
    ReplacementOrderIrrelevant(s, ['.', '/', '\\', ':']);
  }

  /** `"Bearer " + token`, the `Authorization` header of both requests. */
  function Authorization(token: string): (h: string)
    ensures |h| == 7 + |token| && h[..7] == "Bearer " && h[7..] == token
  {
    "Bearer " + token
  }

  /** The endpoint with its trailing slashes removed: what `path.Join` keeps
      of the endpoint's own path before appending segments. */
  function TrimTrailingSlashes(s: string): (r: string)
    ensures |r| <= |s| && s[..|r|] == r
    ensures |r| == 0 || r[|r| - 1] != '/'
    ensures forall k :: |r| <= k < |s| ==> s[k] == '/'
  {
    if |s| == 0 || s[|s| - 1] != '/' then s
    else TrimTrailingSlashes(s[..|s| - 1])
  }

  /** Each segment preceded by one slash. The path ends with a slash and the
      last segment. */
  function PathOf(segments: seq<string>): (r: string)
    ensures |segments| > 0 ==>
      var last := segments[|segments| - 1];
      |r| >= |last| + 1 && r[|r| - |last| - 1..] == "/" + last
  {
    if |segments| == 0 then ""
    else PathOf(segments[..|segments| - 1]) + "/" + segments[|segments| - 1]
  }

  /** A non-empty path is a slash followed by the segments joined with
      slashes. */
  lemma {:induction false} PathOfJoin(segments: seq<string>)
    ensures |segments| > 0 ==> PathOf(segments) == "/" + Join(segments, '/')
    decreases |segments|
  {
    if |segments| > 1 {
      var init, last := segments[..|segments| - 1], segments[|segments| - 1];
      PathOfJoin(init);
      JoinSnoc(init, last, '/');
      assert init + [last] == segments;
    } else if |segments| == 1 {
      var none: seq<string> := [];
      assert segments[..0] == none;
    }
  }

  /** Joining with one more piece at the end appends a separator and that
      piece. */
  lemma {:induction false} JoinSnoc(parts: seq<string>, last: string, sep: char)
    requires |parts| > 0
    ensures Join(parts + [last], sep) == Join(parts, sep) + [sep] + last
    decreases |parts|
  {
    var all := parts + [last];
    assert all[0] == parts[0];
    if |parts| == 1 {
      assert all[1..] == [last];
    } else {
      assert all[1..] == parts[1..] + [last];
      JoinSnoc(parts[1..], last, sep);
    }
  }

  /** The request URL: the endpoint joined with the fixed path segments, plus
      the trailing slash the source appends after the join. It starts with the
      endpoint minus its trailing slashes and ends with the last segment
      between two slashes. */
  function ApiUrl(endpoint: string, segments: seq<string>): (u: string)
    ensures |u| >= 1 && u[|u| - 1] == '/'
    ensures var base := TrimTrailingSlashes(endpoint); |base| < |u| && u[..|base|] == base
    ensures |segments| > 0 ==>
      var last := segments[|segments| - 1];
      |u| >= |last| + 2 && u[|u| - |last| - 2..] == "/" + last + "/"
  {
    TrimTrailingSlashes(endpoint) + PathOf(segments) + "/"
  }

  /** Without its final slash, a request URL is the endpoint minus its
      trailing slashes, a slash, and the segments joined with slashes. */
  lemma ApiUrlJoin(endpoint: string, segments: seq<string>)
    requires |segments| > 0
    ensures ApiUrl(endpoint, segments) == TrimTrailingSlashes(endpoint) + "/" + Join(segments, '/') + "/"
  {
    PathOfJoin(segments);
    var base, path := TrimTrailingSlashes(endpoint), PathOf(segments);
    assert ApiUrl(endpoint, segments) == base + path + "/";
    assert path == "/" + Join(segments, '/');
  }

  /** `orderScan`'s request: a POST to `<endpoint>/api/fetch/` with the bearer
      token, the group, and the image reference as given on the command line
      behind the `docker-registry-https://` scheme. */
  function OrderScan(image: string, c: Config): (req: Request)
    ensures req.verb == Post && req.body == NoBody
    ensures req.url == ApiUrl(c.apiEndpoint, ["api", "fetch"])
    ensures req.headers.Keys == {"Authorization", "Group", "Url"}
  {
    Request(Post, ApiUrl(c.apiEndpoint, ["api", "fetch"]),
      map[
        "Authorization" := Authorization(c.token),
        "Group" := c.group,
        "Url" := "docker-registry-https://" + image],
      NoBody)
  }

  /** `uploadDockerImage`'s request: a PUT to
      `<endpoint>/api/upload/<sanitised name>/` carrying the tarball, with the
      bearer token, the group and a forced scan. */
  function Upload(tarball: seq<byte>, rawName: string, c: Config): (req: Request)
    ensures req.verb == Put && req.body == Tarball(tarball)
    ensures req.url == ApiUrl(c.apiEndpoint, ["api", "upload", FormatImageName(rawName)])
    ensures req.headers.Keys == {"Authorization", "Group", "Force-Scan"}
    ensures req.headers["Force-Scan"] == "True"
  {
    Request(Put, ApiUrl(c.apiEndpoint, ["api", "upload", FormatImageName(rawName)]),
      map[
        "Authorization" := Authorization(c.token),
        "Group" := c.group,
        "Force-Scan" := "True"],
      Tarball(tarball))
  }

  /** Both requests authenticate the same way: the token behind `Bearer `,
      and the group verbatim. */
  lemma SharedHeaders(image: string, tarball: seq<byte>, rawName: string, c: Config)
    ensures var f, u := OrderScan(image, c), Upload(tarball, rawName, c);
      && f.headers["Authorization"] == u.headers["Authorization"] == "Bearer " + c.token
      && f.headers["Group"] == u.headers["Group"] == c.group
  {
  }

  /** The remote scan names the image exactly as given, behind the registry
      scheme: the header ends with the raw reference. */
  lemma OrderScanUrlHeader(image: string, c: Config)
    ensures var h := OrderScan(image, c).headers["Url"];
      |h| == 24 + |image| && h[..24] == "docker-registry-https://" && h[24..] == image
  {
  }

  lemma PathOfTwo(a: string, b: string)
    ensures PathOf([a, b]) == "/" + a + "/" + b
  {
    var none: seq<string> := [];
    assert [a, b][..1] == [a] && [a][..0] == none;
    assert PathOf([a]) == "" + "/" + a == "/" + a;
  }

  /** The path of the upload URL: `/api/upload/` and the name. */
  lemma UploadPath(name: string)
    ensures PathOf(["api", "upload", name]) == "/api/upload/" + name
  {
    assert ["api", "upload", name][..2] == ["api", "upload"];
    PathOfTwo("api", "upload");
    var front := PathOf(["api", "upload"]);
    assert front == "/api/upload";
    assert front + "/" + name == "/api/upload/" + name;
  }

  /** The fetch URL spelled out: `<endpoint>/api/fetch/`. */
  lemma FetchUrlShape(image: string, c: Config)
    ensures OrderScan(image, c).url == TrimTrailingSlashes(c.apiEndpoint) + "/api/fetch/"
  {
    PathOfTwo("api", "fetch");
  }

  /** The upload URL spelled out: `<endpoint>/api/upload/<sanitised name>/`. */
  lemma UploadUrlShape(tarball: seq<byte>, rawName: string, c: Config)
    ensures Upload(tarball, rawName, c).url
      == TrimTrailingSlashes(c.apiEndpoint) + "/api/upload/" + FormatImageName(rawName) + "/"
  {
    var seg := FormatImageName(rawName);
    UploadPath(seg);
    var base := TrimTrailingSlashes(c.apiEndpoint);
    assert Upload(tarball, rawName, c).url == base + PathOf(["api", "upload", seg]) + "/";
  }

  /** The upload URL ends with the sanitised name as its own last segment,
      between two slashes. The segment is non-empty for a non-empty name and
      holds neither `/` nor `.`, so it is one path element that path cleaning
      cannot split or collapse. */
  lemma UploadUrlLastSegment(tarball: seq<byte>, rawName: string, c: Config)
    ensures var u := Upload(tarball, rawName, c).url;
      var seg := FormatImageName(rawName);
      && |u| >= |seg| + 2
      && u[|u| - |seg| - 2..] == "/" + seg + "/"
      && '/' !in seg && '.' !in seg
      && (|rawName| > 0 ==> |seg| > 0)
  {
    SegmentIsClean(rawName);
  }

  /** The sanitised name holds neither `/` nor `.`. */
  lemma SegmentIsClean(rawName: string)
    ensures '/' !in FormatImageName(rawName) && '.' !in FormatImageName(rawName)
  {
    var seg := FormatImageName(rawName);
    assert forall k :: 0 <= k < |seg| ==> seg[k] != '/' && seg[k] != '.';
  }

  /** A URL whose last segment is non-empty and does not end in a slash ends
      in exactly one slash. */
  lemma ApiUrlSingleTrailingSlash(endpoint: string, segments: seq<string>)
    requires |segments| > 0
    requires var last := segments[|segments| - 1]; |last| > 0 && last[|last| - 1] != '/'
    ensures var u := ApiUrl(endpoint, segments);
      u[|u| - 1] == '/' && u[|u| - 2] != '/'
  {
    var u := ApiUrl(endpoint, segments);
    var last := segments[|segments| - 1];
    assert u[|u| - 2] == u[|u| - |last| - 2..][|last|];
  }

  /** Both URLs end in exactly one slash whatever the endpoint: the character
      before the final slash is not a slash. */
  lemma SingleTrailingSlash(image: string, tarball: seq<byte>, rawName: string, c: Config)
    requires |rawName| > 0
    ensures var f := OrderScan(image, c).url;
      f[|f| - 1] == '/' && f[|f| - 2] != '/'
    ensures var u := Upload(tarball, rawName, c).url;
      u[|u| - 1] == '/' && u[|u| - 2] != '/'
  {
    ApiUrlSingleTrailingSlash(c.apiEndpoint, ["api", "fetch"]);
    var seg := FormatImageName(rawName);
    assert !Forbidden(seg[|seg| - 1]);
    ApiUrlSingleTrailingSlash(c.apiEndpoint, ["api", "upload", seg]);
  }
}
