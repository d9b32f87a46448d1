/** main.go's `main` as a pure decision: given the loaded configuration and
    the answers the outside world gives (docker probes, saving and reading the
    tarball, parsing the endpoint, the scanning service's reply), it yields
    the observable steps the program takes, in order, and how it exits. */
module Dispatch {
  import opened Results
  import Image
  import opened Requests

  /** What the program cannot compute itself. `installed` and `running` are
      the results of `docker.EnsureInstalled` and `docker.EnsureRunning`;
      `saved` says whether `SaveToTmpDir` succeeded and `tarball` what
      reading the saved file gave; `endpointParses` says whether `url.Parse`
      accepts the endpoint; `reply` is the report URL decoded from the
      service's answer, or the transport or decoding error. */
  datatype World = World(
    installed: bool,
    running: bool,
    saved: bool,
    tarball: Option<seq<byte>>,
    endpointParses: bool,
    reply: Result<string, string>)

  /** Observable steps, in the order the program takes them. */
  datatype Step =
    | PrintUsage
    | ProbeInstalled
    | ProbeRunning
    | SaveImage(reference: string)
    | ReadTarball
    | Send(request: Request)
    | PrintReport(reportUrl: string)
  {
    /** Steps that involve the docker CLI or the tarball it writes. */
    predicate IsDocker()
    {
      ProbeInstalled? || ProbeRunning? || SaveImage? || ReadTarball?
    }
  }

  /** Why the program stops early. */
  datatype Reason =
    | ConfigError(message: string)
    | MissingEndpoint
    | MissingImage
    | BadEndpoint
    | RequestFailed(message: string)
    | DockerNotInstalled
    | DockerNotRunning
    | BadImage(error: Image.ParseError)
    | SaveFailed
    | ReadFailed

  /** `os.Exit(0)` or returning from `main`; `log.Fatal`; `log.Panic`. */
  datatype Exit = Ok | Fatal(reason: Reason) | Panic(reason: Reason)
  {
    /** The process status each way of stopping produces. */
    function Code(): nat
    {
      match this
      case Ok => 0
      case Fatal(_) => 1
      case Panic(_) => 2
    }
  }

  datatype Trace = Trace(steps: seq<Step>, exit: Exit)

  /** The guards every run passes before any scan: no help flag, an endpoint
      and an image. */
  predicate GuardsPass(c: Config)
  {
    !c.help && c.apiEndpoint != "" && c.image != ""
  }

  /** Everything outside the program answers favourably in remote mode: the
      endpoint parses and the service replies with a report. */
  predicate RemoteSucceeds(w: World)
  {
    w.endpointParses && w.reply.Success?
  }

  /** Everything outside the program answers favourably in local mode:
      docker is installed and running, the image has a tag, saving and
      reading the tarball succeed, and the upload is answered with a report. */
  predicate LocalSucceeds(c: Config, w: World)
  {
    && w.installed && w.running && ':' in c.image
    && w.saved && w.tarball.Some? && RemoteSucceeds(w)
  }

  /** `main`: configuration errors stop first, then help wins over everything,
      then an empty endpoint, then an empty image. Remote mode orders the scan
      at once; local mode probes docker, parses the image, saves and reads the
      tarball and uploads it. */
  function Run(setup: Result<Config, string>, w: World): (t: Trace)
    ensures setup.Failure? ==> t == Trace([], Fatal(ConfigError(setup.error)))
    ensures setup.Success? && setup.value.help ==> t == Trace([PrintUsage], Ok)
    ensures t.exit.Ok? <==>
      setup.Success? && (setup.value.help || (0 < |t.steps| && t.steps[|t.steps| - 1].PrintReport?))
    ensures setup.Success? && !setup.value.help ==>
      var c := setup.value;
      (t.exit.Ok? <==> GuardsPass(c) && (if c.remote then RemoteSucceeds(w) else LocalSucceeds(c, w)))
    ensures setup.Success? && !setup.value.help && t.exit.Ok? ==>
      t.steps[|t.steps| - 1] == PrintReport(w.reply.value)
  {
    match setup
    case Failure(message) => Trace([], Fatal(ConfigError(message)))
    case Success(c) =>
      if c.help then Trace([PrintUsage], Ok)
      else if c.apiEndpoint == "" then Trace([], Fatal(MissingEndpoint))
      else if c.image == "" then Trace([], Fatal(MissingImage))
      else if c.remote then RunRemote(c, w)
      else RunLocal(c, w)
  }

  /** Remote mode: `orderScan` on the image exactly as given. Its failures
      end in `log.Fatal`. */
  function RunRemote(c: Config, w: World): (t: Trace)
    ensures forall s :: s in t.steps ==> !s.IsDocker()
    ensures forall s :: s in t.steps && s.Send? ==>
      w.endpointParses && s.request == OrderScan(c.image, c)
    ensures t.exit.Ok? <==> 0 < |t.steps| && t.steps[|t.steps| - 1].PrintReport?
    ensures w.endpointParses ==> 0 < |t.steps| && t.steps[0] == Send(OrderScan(c.image, c))
    ensures t.exit.Ok? <==> RemoteSucceeds(w)
    ensures t.exit.Ok? ==> t.steps[|t.steps| - 1] == PrintReport(w.reply.value)
    ensures !t.exit.Panic?
    ensures t.exit == Fatal(BadEndpoint) <==> !w.endpointParses
    ensures t.exit.Fatal? && t.exit.reason.RequestFailed? <==> w.endpointParses && w.reply.Failure?
    ensures w.endpointParses && w.reply.Failure? ==> t.exit.reason == RequestFailed(w.reply.error)
    ensures |t.steps| <= 2 && (|t.steps| == 2 <==> t.exit.Ok?)
    ensures !w.endpointParses ==> t.steps == []
  {
    if !w.endpointParses then Trace([], Fatal(BadEndpoint))
    else
      var sent := Send(OrderScan(c.image, c));
      match w.reply
      case Failure(message) => Trace([sent], Fatal(RequestFailed(message)))
      case Success(reportUrl) => Trace([sent, PrintReport(reportUrl)], Ok)
  }

  /** Local mode: the two probes, `image.New`, then saving the printed
      reference and uploading it. Every failure ends in `log.Panic`. */
  function RunLocal(c: Config, w: World): (t: Trace)
    ensures t.exit.Ok? <==> 0 < |t.steps| && t.steps[|t.steps| - 1].PrintReport?
    ensures !t.exit.Fatal?
    ensures t.exit.Ok? <==> LocalSucceeds(c, w)
    ensures t.exit.Ok? ==> t.steps[|t.steps| - 1] == PrintReport(w.reply.value)
    ensures 0 < |t.steps| && t.steps[0] == ProbeInstalled
    ensures w.installed ==> 2 <= |t.steps| && t.steps[1] == ProbeRunning
  {
    if !w.installed then Trace([ProbeInstalled], Panic(DockerNotInstalled))
    else if !w.running then Trace([ProbeInstalled, ProbeRunning], Panic(DockerNotRunning))
    else
      match Image.New(c.image)
      case Failure(e) => Trace([ProbeInstalled, ProbeRunning], Panic(BadImage(e)))
      case Success(image) => AfterParse(c, w, image)
  }

  /** Local mode once both probes succeeded and the image parsed: the save of
      the printed reference, then the rest of the upload. */
  function AfterParse(c: Config, w: World, image: Image.Image): (t: Trace)
    ensures t.exit.Ok? <==> 0 < |t.steps| && t.steps[|t.steps| - 1].PrintReport?
    ensures !t.exit.Fatal?
    ensures t.exit.Ok? <==> w.saved && w.tarball.Some? && w.endpointParses && w.reply.Success?
    ensures t.exit.Ok? ==> t.steps[|t.steps| - 1] == PrintReport(w.reply.value)
    ensures 3 <= |t.steps| && t.steps[..3] == [ProbeInstalled, ProbeRunning, SaveImage(Image.ToString(image))]
    ensures w.saved ==> 4 <= |t.steps| && t.steps[3] == ReadTarball
  {
    var reference := Image.ToString(image);
    var rest := SaveAndUpload(c, w, reference);
    var done := [ProbeInstalled, ProbeRunning, SaveImage(reference)];
    var steps := done + rest.steps;
    assert steps[..3] == done;
    assert w.saved ==> steps[3] == rest.steps[0];
    assert 0 < |rest.steps| ==> steps[|steps| - 1] == rest.steps[|rest.steps| - 1];
    Trace(steps, rest.exit)
  }

  /** What follows `SaveToTmpDir` in local mode: reading the tarball, then
      `uploadDockerImage` under the printed reference. The steps listed are
      those after the save itself; none of them is a probe or another save. */
  function SaveAndUpload(c: Config, w: World, reference: string): (t: Trace)
    ensures forall s :: s in t.steps ==>
      !s.SaveImage? && !s.ProbeInstalled? && !s.ProbeRunning?
    ensures forall s :: s in t.steps && s.Send? ==>
      w.endpointParses && w.saved && w.tarball.Some?
      && s.request == Upload(w.tarball.value, reference, c)
    ensures t.exit.Ok? <==> 0 < |t.steps| && t.steps[|t.steps| - 1].PrintReport?
    ensures w.saved ==> 0 < |t.steps| && t.steps[0] == ReadTarball
    ensures |t.steps| ==
      if !w.saved then 0
      else if w.tarball.None? || !w.endpointParses then 1
      else if w.reply.Failure? then 2
      else 3
    ensures t.exit.Ok? <==> w.saved && w.tarball.Some? && w.endpointParses && w.reply.Success?
    ensures t.exit.Ok? ==> t.steps[|t.steps| - 1] == PrintReport(w.reply.value)
    ensures t.exit == Panic(SaveFailed) <==> !w.saved
    ensures t.exit == Panic(ReadFailed) <==> w.saved && w.tarball.None?
    ensures t.exit == Panic(BadEndpoint) <==> w.saved && w.tarball.Some? && !w.endpointParses
    ensures t.exit.Panic? && t.exit.reason.RequestFailed? <==>
      w.saved && w.tarball.Some? && w.endpointParses && w.reply.Failure?
    ensures t.exit.Panic? && t.exit.reason.RequestFailed? ==> t.exit.reason.message == w.reply.error
  {
    if !w.saved then Trace([], Panic(SaveFailed))
    else
      match w.tarball
      case None => Trace([ReadTarball], Panic(ReadFailed))
      case Some(bytes) =>
        if !w.endpointParses then Trace([ReadTarball], Panic(BadEndpoint))
        else
          var sent := Send(Upload(bytes, reference, c));
          match w.reply
          case Failure(message) => Trace([ReadTarball, sent], Panic(RequestFailed(message)))
          case Success(reportUrl) => Trace([ReadTarball, sent, PrintReport(reportUrl)], Ok)
  }

  /** In local mode the only request is the upload of the tarball read back,
      under the printed form of the parsed image. */
  lemma LocalSends(c: Config, w: World)
    ensures forall s :: s in RunLocal(c, w).steps && s.Send? ==>
      && w.installed && w.running && w.saved
      && w.endpointParses && w.tarball.Some? && Image.New(c.image).Success?
      && s.request == Upload(w.tarball.value, Image.ToString(Image.New(c.image).value), c)
  {
    if w.installed && w.running && ':' in c.image {
      var image := Image.New(c.image).value;
      var rest := SaveAndUpload(c, w, Image.ToString(image));
      AfterParseTail(c, w, image);
      assert RunLocal(c, w) == AfterParse(c, w, image);
      forall s | s in RunLocal(c, w).steps && s.Send?
        ensures s in rest.steps
      {
      }
    }
  }

  /** After a parse, the steps are the probes and the save of the printed
      reference, followed by what `SaveAndUpload` does under that reference. */
  lemma AfterParseTail(c: Config, w: World, image: Image.Image)
    ensures var reference := Image.ToString(image);
      AfterParse(c, w, image).steps
        == [ProbeInstalled, ProbeRunning, SaveImage(reference)] + SaveAndUpload(c, w, reference).steps
  {
  }

  /** In local mode an image is saved only as the third step, after both
      probes succeeded and the image parsed. */
  lemma LocalSaveOrder(c: Config, w: World)
    ensures var t := RunLocal(c, w);
      forall s :: s in t.steps && s.SaveImage? ==>
        && 3 <= |t.steps|
        && t.steps[0] == ProbeInstalled && t.steps[1] == ProbeRunning && t.steps[2] == s
        && w.installed && w.running && ':' in c.image
  {
    if w.installed && w.running && ':' in c.image {
      AfterParseTail(c, w, Image.New(c.image).value);
    }
  }

  /** No request is sent unless help is off, the endpoint and the image are
      set and the endpoint parses. */
  lemma SendNeedsGuards(setup: Result<Config, string>, w: World)
    ensures forall s :: s in Run(setup, w).steps && s.Send? ==>
      && setup.Success? && GuardsPass(setup.value) && w.endpointParses
      && (setup.value.remote || (w.installed && w.running && w.saved))
  {
    if setup.Success? && GuardsPass(setup.value) && !setup.value.remote {
      LocalSends(setup.value, w);
    }
  }

  /** Remote mode never touches docker or a tarball. */
  lemma RemoteTakesNoDockerStep(c: Config, w: World)
    requires c.remote
    ensures forall s :: s in Run(Success(c), w).steps ==> !s.IsDocker()
  {
  }

  /** Whatever the configuration, an image is saved only right after both
      probes succeeded, and only if the image has a colon. */
  lemma SaveFollowsProbes(setup: Result<Config, string>, w: World)
    ensures var t := Run(setup, w);
      forall s :: s in t.steps && s.SaveImage? ==>
        && 3 <= |t.steps|
        && t.steps[0] == ProbeInstalled && t.steps[1] == ProbeRunning && t.steps[2] == s
        && w.installed && w.running
        && setup.Success? && ':' in setup.value.image
  {
    if setup.Success? && GuardsPass(setup.value) && !setup.value.remote {
      LocalSaveOrder(setup.value, w);
    }
  }

  /** The help flag decides the run on its own: nothing else in the
      configuration or the world changes the outcome. */
  lemma HelpWins(c: Config, w: World, c': Config, w': World)
    requires c.help && c'.help
    ensures Run(Success(c), w) == Run(Success(c'), w')
    ensures Run(Success(c), w).exit.Code() == 0
  {
  }

  /** An empty endpoint, with no help flag, stops the run before any step,
      whatever the image or mode; an empty image does so once the endpoint is
      set. */
  lemma EmptyFieldsAbort(c: Config, w: World)
    requires !c.help && (c.apiEndpoint == "" || c.image == "")
    ensures Run(Success(c), w).steps == []
    ensures Run(Success(c), w).exit
      == Fatal(if c.apiEndpoint == "" then MissingEndpoint else MissingImage)
  {
  }

  /** In remote mode at most one request is sent: the fetch request for the
      raw image text, whose `Url` header ends with that text, even when it has
      no colon. */
  lemma RemoteSendsFetch(c: Config, w: World)
    requires GuardsPass(c) && c.remote
    ensures var t := Run(Success(c), w);
      && (w.endpointParses ==> 0 < |t.steps| && t.steps[0] == Send(OrderScan(c.image, c)))
      &&
      forall k :: 0 <= k < |t.steps| && t.steps[k].Send? ==>
        && k == 0
        && t.steps[k].request.verb == Post
        && t.steps[k].request.headers["Url"] == "docker-registry-https://" + c.image
  {
  }

  /** When every outside step succeeds, local mode probes, saves the printed
      reference, reads the tarball back and uploads it under that reference:
      text after a second colon of the image never reaches docker or the
      service (with `Requests.UploadUrlLastSegment`, the upload URL's last
      segment is the sanitised reference). */
  lemma LocalUploadNamesParsedImage(c: Config, w: World)
    requires GuardsPass(c) && !c.remote && ':' in c.image
    requires w.installed && w.running && w.saved && w.tarball.Some? && w.endpointParses
    ensures var t := Run(Success(c), w);
      var reference := Image.ToString(Image.New(c.image).value);
      && |t.steps| >= 5
      && t.steps[..5] == [ProbeInstalled, ProbeRunning, SaveImage(reference), ReadTarball,
                          Send(Upload(w.tarball.value, reference, c))]
  {
    var image := Image.New(c.image).value;
    assert Run(Success(c), w) == AfterParse(c, w, image);
    AfterParseSteps(c, w, image);
  }

  /** The first five steps after a successful parse, when the save, the read
      and the endpoint all succeed. */
  lemma AfterParseSteps(c: Config, w: World, image: Image.Image)
    requires w.saved && w.tarball.Some? && w.endpointParses
    ensures var t := AfterParse(c, w, image);
      var reference := Image.ToString(image);
      && |t.steps| >= 5
      && t.steps[..5] == [ProbeInstalled, ProbeRunning, SaveImage(reference), ReadTarball,
                          Send(Upload(w.tarball.value, reference, c))]
  {
    var reference := Image.ToString(image);
    var rest := SaveAndUpload(c, w, reference);
    UploadSent(c, w, reference);
    var steps := [ProbeInstalled, ProbeRunning, SaveImage(reference)] + rest.steps;
    assert steps[..5] == [ProbeInstalled, ProbeRunning, SaveImage(reference)] + rest.steps[..2];
  }

  /** Once the tarball is saved and read and the endpoint parses, the read is
      followed by the upload under the given reference. */
  lemma UploadSent(c: Config, w: World, reference: string)
    requires w.saved && w.tarball.Some? && w.endpointParses
    ensures var t := SaveAndUpload(c, w, reference);
      |t.steps| >= 2 && t.steps[0] == ReadTarball
      && t.steps[1] == Send(Upload(w.tarball.value, reference, c))
  {
    var sent := Send(Upload(w.tarball.value, reference, c));
    match w.reply
    case Failure(message) =>
      assert SaveAndUpload(c, w, reference).steps == [ReadTarball, sent];
    case Success(reportUrl) =>
      assert SaveAndUpload(c, w, reference).steps == [ReadTarball, sent, PrintReport(reportUrl)];
  }

  /** Local mode never parses the image unless both probes succeed: a bad
      image is reported only after both probes, and a missing docker CLI is
      reported before the daemon is asked. */
  lemma LocalProbeOrder(c: Config, w: World)
    requires GuardsPass(c) && !c.remote
    ensures var t := Run(Success(c), w);
      && (t.exit == Panic(DockerNotInstalled) <==> !w.installed)
      && (t.exit == Panic(DockerNotRunning) <==> w.installed && !w.running)
      && (t.exit.Panic? && t.exit.reason.BadImage? <==> w.installed && w.running && ':' !in c.image)
      && (0 < |t.steps| && t.steps[0] == ProbeInstalled)
      && (w.installed ==> 2 <= |t.steps| && t.steps[1] == ProbeRunning)
      && (!w.installed ==> |t.steps| == 1)
  {
  }

  /** A local run stops at the first step that fails and takes no step
      beyond the source's: one for a missing docker CLI, two for a stopped
      daemon or an untagged image, three for a failed save, four for a failed
      read or an unparsable endpoint, five for a failed upload and six, the
      last printing the report URL, for a success. */
  lemma LocalStopsAtFirstFailure(c: Config, w: World)
    requires GuardsPass(c) && !c.remote
    ensures |Run(Success(c), w).steps| ==
      if !w.installed then 1
      else if !w.running || ':' !in c.image then 2
      else if !w.saved then 3
      else if w.tarball.None? || !w.endpointParses then 4
      else if w.reply.Failure? then 5
      else 6
  {
    if w.installed && w.running && ':' in c.image {
      AfterParseTail(c, w, Image.New(c.image).value);
    }
  }

  /** The failure reasons after the parse, for the whole program: `main`
      reports a failed save, read, endpoint parse or upload in local mode
      exactly as local mode does. */
  lemma RunFailureReasons(c: Config, w: World)
    requires GuardsPass(c) && !c.remote
    ensures var t := Run(Success(c), w); var parsed := w.installed && w.running && ':' in c.image;
      && (t.exit == Panic(SaveFailed) <==> parsed && !w.saved)
      && (t.exit == Panic(ReadFailed) <==> parsed && w.saved && w.tarball.None?)
      && (t.exit == Panic(BadEndpoint) <==> parsed && w.saved && w.tarball.Some? && !w.endpointParses)
      && (t.exit.Panic? && t.exit.reason.RequestFailed? <==>
            parsed && w.saved && w.tarball.Some? && w.endpointParses && w.reply.Failure?)
      && (t.exit.Panic? && t.exit.reason.RequestFailed? ==> t.exit.reason.message == w.reply.error)
  {
    LocalFailureReasons(c, w);
    assert Run(Success(c), w) == RunLocal(c, w);
  }

  /** Once both probes succeeded and the image has a tag, local mode saves
      the printed form of the parsed image as its third step, and, if the save
      succeeded, reads the tarball as its fourth, whatever happens next. */
  lemma LocalSaveAndRead(c: Config, w: World)
    requires w.installed && w.running && ':' in c.image
    ensures var t := RunLocal(c, w);
      && 3 <= |t.steps| && t.steps[2] == SaveImage(Image.ToString(Image.New(c.image).value))
      && (w.saved ==> 4 <= |t.steps| && t.steps[3] == ReadTarball)
  {
    var image := Image.New(c.image).value;
    var t := AfterParse(c, w, image);
    assert RunLocal(c, w) == t;
    assert t.steps[2] == t.steps[..3][2];
  }

  /** After the parse, local mode reports each failure with its own reason,
      exactly when that step is the first to fail; a failed upload keeps the
      service's error. */
  lemma LocalFailureReasons(c: Config, w: World)
    ensures var t := RunLocal(c, w); var parsed := w.installed && w.running && ':' in c.image;
      && (t.exit == Panic(SaveFailed) <==> parsed && !w.saved)
      && (t.exit == Panic(ReadFailed) <==> parsed && w.saved && w.tarball.None?)
      && (t.exit == Panic(BadEndpoint) <==> parsed && w.saved && w.tarball.Some? && !w.endpointParses)
      && (t.exit.Panic? && t.exit.reason.RequestFailed? <==>
            parsed && w.saved && w.tarball.Some? && w.endpointParses && w.reply.Failure?)
      && (t.exit.Panic? && t.exit.reason.RequestFailed? ==> t.exit.reason.message == w.reply.error)
  {
    if w.installed && w.running && ':' in c.image {
      var image := Image.New(c.image).value;
      var rest := SaveAndUpload(c, w, Image.ToString(image));
      assert RunLocal(c, w).exit == rest.exit;
    }
  }
}
