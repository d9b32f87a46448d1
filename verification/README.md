# ptch — a Dafny model of the image reference, the scan requests and the dispatch of `main`

`ptch` is a small command-line client for a remote container-image
vulnerability scanner. In local mode it checks that the docker CLI is
installed and its daemon is running. It then parses the `repo:tag` image
reference, saves the image to a tarball with `docker save`, and uploads the
tarball with a PUT to `<endpoint>/api/upload/<sanitised name>/`. In remote
mode it skips docker entirely. It POSTs to `<endpoint>/api/fetch/` and asks
the service to pull `docker-registry-https://<image>` itself. Either way it
prints the report URL the service returns.

This project models the logic the program computes itself:

- `Strings` (strings.dfy): the one-character forms of Go's `strings.Split`
  and `strings.ReplaceAll` that the program uses, with `Join` as the
  reference definition `Split` is checked against. `Split` is proved to be
  the inverse of `Join` on non-empty lists of separator-free pieces.
- `Image` (image.dfy): `image.New` and `Image.String` from image/image.go.
  `New` is characterised without mentioning splitting. The repo is the text
  before the first colon. The tag is the text up to the second colon or the
  end. Nothing else is kept. The parse–print round trip holds exactly for
  inputs with one colon.
- `Requests` (requests.dfy): the `config` record, `formatImageName`, and
  the two requests built by `orderScan` and `uploadDockerImage` (method, URL,
  headers, body).
- `Dispatch` (dispatch.dfy): `main` as a pure function. It takes the loaded
  configuration and a `World` holding every answer the outside world gives
  the program. It returns the ordered steps taken and the way the process
  exits (0 on success, 1 for `log.Fatal`, 2 for `log.Panic`).
- `Results` (results.dfy): `Result` and `Option`, standing for Go's
  `(value, error)` pairs.

## Model

| member | source | states |
|---|---|---|
| `Strings.Split` | image/image.go:26 | splitting on a character gives one piece more than there are separators; no piece holds the separator; joining the pieces gives the input back |
| `Strings.SplitOfJoin` | image/image.go:26 | splitting the join of a non-empty list of pieces that do not hold the separator gives that list back |
| `Strings.ReplaceAll` | main.go:191-194 | replacing one character keeps the length; each position holds the replacement where the input had the old character, and is unchanged elsewhere |
| `Image.New` | image/image.go:21-31 | fails with "no tag" if and only if the input has no colon; on success repo and tag are colon-free, and the input starts with `repo:tag` followed by its end or another colon |
| `Image.NewPieces` | image/image.go:26-29 | the first two pieces of the split exist whenever the input has a colon, and they describe how the input starts |
| `Image.LeadingRefUnique` | image/image.go:21-31 | that description of the input's start has only one solution, so `New`'s result is fully determined: repo is the text before the first colon, tag the text between the first and second colon |
| `Image.ToString` | image/image.go:33-35 | the printed reference is one character longer than repo and tag together and holds exactly one colon more than they do |
| `Image.ParseOfString` | image/image.go:21-35 | parsing the printed form of a reference with colon-free repo and tag gives that reference back |
| `Image.RoundTripIffOneColon` | image/image.go:21-35 | parsing succeeds and printing gives the input back if and only if the input has exactly one colon |
| `Image.ExtraColonDropped` | image/image.go:26-29 | `a:b:c` parses to repo `a`, tag `b`; the text after the second colon is discarded |
| `Image.BareColon` | image/image.go:22-30 | `:` parses to an empty repo and an empty tag without error |
| `Image.RegistryPortSplit` | image/image.go:26-29 | a registry port is taken as the tag: `localhost:5000/app:v1` parses to repo `localhost`, tag `5000/app` |
| `Image.ParseOfLeading` | image/image.go:21-31 | any reference that describes the input's start is what `New` returns |
| `Requests.FormatImageName` | main.go:190-195 | the sanitised name has the input's length; `.`, `/`, `\` and `:` become `_` position by position, other characters are unchanged, and no forbidden character remains |
| `Requests.FormatIdempotent` | main.go:190-195 | sanitising twice is the same as sanitising once |
| `Requests.ReplaceEachPointwise` | main.go:191-194 | a chain of replacements that all write the same character replaces exactly the characters listed in the chain, in whatever order |
| `Requests.ReplacementOrderIrrelevant` | main.go:190-195 | any order of the four replacements gives the same name as the source's order |
| `Requests.SourceOrder` | main.go:191-194 | the source's order (dots, slashes, backslashes, colons) is the chain of the four replacements |
| `Requests.Authorization` | main.go:167 | the header is `Bearer ` followed by the token unchanged |
| `Requests.ApiUrl` | main.go:160-162 | every request URL ends in a slash, starts with the endpoint minus its trailing slashes, and ends with its last segment between two slashes |
| `Requests.PathOfJoin` | main.go:160 | the path appended to the endpoint is a slash followed by the segments joined with slashes |
| `Requests.ApiUrlJoin` | main.go:160-162 | without its final slash, a request URL is exactly the endpoint minus its trailing slashes, a slash, and all the segments joined with slashes |
| `Requests.UploadPath` | main.go:202 | the upload path is `/api/upload/` followed by the sanitised name |
| `Requests.OrderScan` | main.go:155-170 | the remote-scan request is a body-less POST to the fetch URL carrying exactly the `Authorization`, `Group` and `Url` headers |
| `Requests.Upload` | main.go:197-210 | the upload request is a PUT of the tarball to the upload URL named by the sanitised name, carrying exactly the `Authorization`, `Group` and `Force-Scan` headers, with `Force-Scan` set to `True` |
| `Requests.SharedHeaders` | main.go:208-209 | both requests set `Authorization` to `Bearer ` plus the token, and `Group` to the configured group verbatim |
| `Requests.OrderScanUrlHeader` | main.go:169 | the `Url` header is `docker-registry-https://` followed by the image text exactly as given |
| `Requests.FetchUrlShape` | main.go:160-162 | the fetch URL is the endpoint followed by `/api/fetch/` |
| `Requests.UploadUrlShape` | main.go:202-203 | the upload URL is the endpoint followed by `/api/upload/`, the sanitised name and `/` |
| `Requests.UploadUrlLastSegment` | main.go:202-203 | the sanitised name is the URL's last segment, between two slashes; it holds no `/` or `.` and is non-empty for a non-empty name |
| `Requests.SegmentIsClean` | main.go:190-195 | the sanitised name holds neither a path separator nor a dot |
| `Requests.SingleTrailingSlash` | main.go:203 | both request URLs end in exactly one slash, whatever trailing slashes the endpoint has |
| `Dispatch.Run` | main.go:62-132 | an error returned by the configuration loader stops with nothing done and `log.Fatal`; help prints usage and exits 0 whatever else holds; without help, the run succeeds if and only if the guards pass and every outside step of the chosen mode succeeds, and then its last step prints the URL the service replied with |
| `Dispatch.RunRemote` | main.go:82-89 | remote mode takes no docker step and at most two steps, two exactly when it succeeds and none when the endpoint does not parse; when the endpoint parses its first step sends the fetch request, and no other request is ever sent; it succeeds exactly when the endpoint parses and the service replies, printing the reply's report URL last; every failure is `log.Fatal`, never a panic, with a bad endpoint and a failed request told apart and the request's error kept |
| `Dispatch.RunLocal` | main.go:91-131 | local mode always probes the installation first and, once docker is installed, the daemon second; it never ends in `log.Fatal`, every failure panics; it succeeds if and only if docker is installed and running, the image has a tag, the save, the read and the upload succeed and the endpoint parses, and then its last step prints the report URL the service replied with |
| `Dispatch.SaveAndUpload` | main.go:105-131 | after the save there is no probe and no second save; a successful save is followed first by reading the tarball, whether or not the read succeeds; it stops at the first failure: no step after a failed save, only the read after a failed read or an unparsable endpoint, the read and one upload after a failed upload, and the read, one upload and the report on success; a failed save, a failed read, an unparsable endpoint and a failed request each panic with their own reason, if and only if that step is the first to fail, and a failed request keeps its error; success happens exactly when all of them succeed, and ends by printing the reply's report URL |
| `Dispatch.AfterParse` | main.go:105-131 | once the image parsed, the first three steps are the two probes and the save of the printed reference, whether or not the save succeeds; a successful save is followed by the read of the tarball; local mode panics rather than exiting fatally; it succeeds exactly when the save, the read, the endpoint and the upload succeed, printing the reply's report URL |
| `Dispatch.AfterParseSteps` | main.go:105-127 | with the save, the read and the endpoint succeeding, the steps after a parse begin with the probes, the save, the read and the upload of the printed reference |
| `Dispatch.UploadSent` | main.go:116-127 | after a successful save and read with a parsable endpoint, the read is immediately followed by the upload under the given reference |
| `Dispatch.AfterParseTail` | main.go:105-131 | after a parse the steps are the two probes, the save of the printed reference, and then exactly the steps that follow the save |
| `Dispatch.LocalSaveAndRead` | main.go:100-123 | when both probes succeed and the image has a tag, the third step saves the printed form of the parsed image, and a successful save is followed by reading the tarball as the fourth step, whatever happens later |
| `Dispatch.LocalFailureReasons` | main.go:100-131 | at the level of the whole local run, a failed save, a failed read, an unparsable endpoint and a failed upload each panic with their own reason exactly when that step is the first to fail after a successful parse; a failed upload keeps the service's error |
| `Dispatch.LocalStopsAtFirstFailure` | main.go:91-131 | a local run takes exactly as many steps as the source reaches: one when docker is missing, two when the daemon is stopped or the image has no tag, three after a failed save, four after a failed read or an unparsable endpoint, five after a failed upload, six on success |
| `Dispatch.RunFailureReasons` | main.go:100-131 | for the whole program in local mode, a failed save, read, endpoint parse or upload each panics with its own reason exactly when that step is the first to fail after a successful parse; a failed upload keeps the service's error |
| `Dispatch.LocalSends` | main.go:91-127 | in local mode the only request is a PUT of the tarball read back, named by the printed form of the parsed image, and it is sent only when docker is installed and running, the image parsed, the save and the read succeeded and the endpoint parses |
| `Dispatch.LocalSaveOrder` | main.go:91-105 | in local mode an image is saved only as the third step, after the installed and running probes, and only when both succeeded and the image has a colon |
| `Dispatch.SendNeedsGuards` | main.go:62-127 | no request is sent unless the configuration loaded, help is off, the endpoint and image are set, and the endpoint parses; in local mode, in addition, docker must be installed and running and the image saved |
| `Dispatch.RemoteTakesNoDockerStep` | main.go:82-89 | remote mode takes no docker step: no probe, no save and no tarball read |
| `Dispatch.SaveFollowsProbes` | main.go:62-105 | whatever the configuration, an image is saved only right after both probes succeeded, and only if the image has a colon |
| `Image.RepoEndsAtFirstColon` | image/image.go:26-29 | the repo of a reference that describes the input's start is the text before the input's first colon |
| `Requests.ApiUrlSingleTrailingSlash` | main.go:160-162 | a URL whose last segment is non-empty and does not end in a slash ends in exactly one slash |
| `Dispatch.HelpWins` | main.go:68-72 | with the help flag set the outcome does not depend on the rest of the configuration or on the world, and the exit code is 0 |
| `Dispatch.EmptyFieldsAbort` | main.go:74-80 | with help off, an empty endpoint aborts before any step; an empty image does so once the endpoint is set |
| `Dispatch.RemoteSendsFetch` | main.go:82-89 | in remote mode with a parsable endpoint the first step sends the fetch request; the only request is that first step, a POST whose `Url` header carries the raw image text |
| `Dispatch.LocalUploadNamesParsedImage` | main.go:91-127 | when every outside step succeeds, local mode probes the installation, probes the daemon, saves the printed form of the parsed image, reads the tarball and uploads it under that same printed form, in that order |
| `Dispatch.LocalProbeOrder` | main.go:91-103 | local mode first probes the installation and stops right there when docker is missing; once docker is installed it probes the daemon second; it parses the image only when both succeed; each failure is reported if and only if its cause holds |

## Left out

- docker/docker.go: `EnsureInstalled`, `EnsureRunning` and `SaveImage` spawn processes. Their answers are the fields `installed`, `running` and `saved` of `Dispatch.World`.
- `Image.SaveToTmpDir` (temporary directory, `docker save`) and `ioutil.ReadFile` of the tarball: file-system I/O. Only their success or failure (`saved`, `tarball`) is modelled.
- `setupConfig`: flag parsing and the YAML lookup are done by foreign libraries. `Dispatch.Run` receives the outcome of a `setupConfig` call that returned, as a `Result<Config, string>`. An unknown flag, or `-i` with no value, makes the flag library print the error and the usage and exit with status 2 inside `setupConfig`, before `main` can call `log.Fatal`; that exit is not modelled.
- Executing the HTTP requests, reading the body and decoding the JSON `Response`: network I/O and library decoding. `World.reply` stands for the decoded report URL or for the error. The wrapped error text, which embeds the raw body for the fetch, is not modelled.
- `url.Parse` and `http.NewRequest` failures: `World.endpointParses` stands for both.
- Requests.ApiUrl: models `path.Join` only as removing the endpoint's trailing slashes and appending the segments. An endpoint with a path, such as `https://host/base/`, and one without, such as `https://host`, are modelled as Go treats them. Not modelled, because they are library behaviour of `net/url` and `path`: query strings and fragments; interior `.`/`..` elements; the collapsing of repeated slashes inside the endpoint's path (`https://host/a//b` is requested as `https://host/a/b/api/fetch/`, the model keeps `//`); the lower-casing of the scheme (`HTTPS://host` is requested as `https://host/...`); the percent-escaping `URL.String` applies to the path, so a segment holding `%`, `?`, `#` or a space is sent escaped; and an endpoint with no `//`, such as `localhost:8080`, which `net/url` reads as a scheme with an opaque part and then prints without the path, so Go requests `localhost:8080/` where the model gives `localhost:8080/api/fetch/`.
- The deferred removal of the tarball and the log output: these happen on exit, after every step the model records.
- The local-image listing utility is not part of this model.
