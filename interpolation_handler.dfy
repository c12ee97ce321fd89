/**
 * The interpolation stage of the build pipeline
 * (vikit/video/building/handlers/interpolation_handler.py). It sends the
 * video's current locator to the interpolation service, downloads the result
 * to the file name the video gives for its build state, makes that the new
 * locator, marks the video interpolated and checks the locator is not empty.
 *
 * The external calls are parameters:
 *  - `interpolate` is the gateway's `interpolate_async` (of the gateway the
 *    video's build settings hand out); `None` means the call raised;
 *  - `download(url, fileName)` is `urlretrieve(url, fileName)[0]`, the local
 *    path; `None` means the call raised;
 *  - `fileNameByState` is the video's `get_file_name_by_state`, bound to the
 *    video (so to its id); it may read the video's metadata and locator as
 *    they are when it is called, before the stage writes anything.
 */
module InterpolationHandler {
  import opened Wrappers
  import opened VideoBase

  /** Why the stage stopped: a service raised, or the closing assertion failed. */
  datatype HandlerError = GatewayFailed | DownloadFailed | NotGenerated

  /** What the stage leaves in the two fields it writes, and how it ends. */
  datatype Step = Step(mediaUrl: Option<string>, metadata: Metadata, outcome: Outcome<HandlerError>)

  /** The effect of one run of the stage on a video whose locator, flags and settings are given. */
  function Effect(
    mediaUrl: Option<string>, metadata: Metadata, settings: BuildSettings,
    interpolate: Option<string> -> Option<string>,
    fileNameByState: (Metadata, Option<string>, BuildSettings) -> string,
    download: (string, string) -> Option<string>): (s: Step)
    // a service that raises leaves the video as it was
    ensures s.outcome == Fail(GatewayFailed) <==> interpolate(mediaUrl).None?
    ensures s.outcome == Fail(GatewayFailed) || s.outcome == Fail(DownloadFailed) ==>
      s.mediaUrl == mediaUrl && s.metadata == metadata
    // otherwise the new locator is the download of what the service made of
    // the old locator, into the file named after the video's state
    ensures interpolate(mediaUrl).Some? ==>
      var path := download(interpolate(mediaUrl).value, fileNameByState(metadata, mediaUrl, settings));
      && (s.outcome == Fail(DownloadFailed) <==> path.None?)
      && (path.Some? ==> s.mediaUrl == Some(path.value) && s.metadata.isInterpolated)
      // and the stage succeeds exactly when that path is not empty
      && (path.Some? ==> (s.outcome == Pass <==> path.value != "") && s.outcome != Fail(DownloadFailed))
    ensures s.outcome == Pass ==> s.mediaUrl.Some? && s.mediaUrl.value != "" && s.metadata.isInterpolated
    // the other flags are never written, and the interpolated flag is never cleared
    ensures s.metadata.isReencoded == metadata.isReencoded
    ensures s.metadata.isSubtitled == metadata.isSubtitled
    ensures s.metadata.hasBackgroundMusic == metadata.hasBackgroundMusic
    ensures metadata.isInterpolated ==> s.metadata.isInterpolated
  {
    match interpolate(mediaUrl)
    case None => Step(mediaUrl, metadata, Fail(GatewayFailed))
    case Some(interpolated) =>
      match download(interpolated, fileNameByState(metadata, mediaUrl, settings))
      case None => Step(mediaUrl, metadata, Fail(DownloadFailed))
      case Some(path) =>
        Step(Some(path), metadata.(isInterpolated := true),
             if path == "" then Fail(NotGenerated) else Pass)
  }

  /**
   * `execute_async`: runs the stage on `video` in place. It writes the locator
   * and the interpolated flag and nothing else, and on success returns the
   * very object it was given. When the new locator is empty the fields are
   * already written when the closing assertion fails.
   */
  method Execute(
    video: Video,
    interpolate: Option<string> -> Option<string>,
    fileNameByState: (Metadata, Option<string>, BuildSettings) -> string,
    download: (string, string) -> Option<string>)
    returns (r: Result<Video, HandlerError>)
    modifies video
    ensures var s := Effect(old(video.mediaUrl), old(video.metadata), old(video.buildSettings),
                            interpolate, fileNameByState, download);
      && video.mediaUrl == s.mediaUrl
      && video.metadata == s.metadata
      && (r.Success? <==> s.outcome == Pass)
      && (r.Failure? ==> s.outcome == Fail(r.error))
    ensures r.Success? ==> r.value == video
    ensures video.dependencies == old(video.dependencies)
    ensures video.buildSettings == old(video.buildSettings)
    ensures video.sourceVideo == old(video.sourceVideo) && video.targetVideo == old(video.targetVideo)
  {
    var interpolated := interpolate(video.mediaUrl);
    if interpolated.None? {
      return Failure(GatewayFailed);
    }
    var fileName := fileNameByState(video.metadata, video.mediaUrl, video.buildSettings);
    var path := download(interpolated.value, fileName);
    if path.None? {
      return Failure(DownloadFailed);
    }
    video.mediaUrl := Some(path.value);
    video.metadata := video.metadata.(isInterpolated := true);
    if video.mediaUrl.value == "" {
      return Failure(NotGenerated);
    }
    r := Success(video);
  }

  /**
   * Running the stage again, whatever the services do the second time, keeps
   * the interpolated flag set once the first run got past its service calls.
   */
  lemma FlagStaysSet(
    mediaUrl: Option<string>, metadata: Metadata, settings: BuildSettings,
    interpolate: Option<string> -> Option<string>,
    fileNameByState: (Metadata, Option<string>, BuildSettings) -> string,
    download: (string, string) -> Option<string>,
    interpolate2: Option<string> -> Option<string>,
    download2: (string, string) -> Option<string>)
    requires
      var s := Effect(mediaUrl, metadata, settings, interpolate, fileNameByState, download);
      s.outcome == Pass || s.outcome == Fail(NotGenerated)
    ensures
      var s := Effect(mediaUrl, metadata, settings, interpolate, fileNameByState, download);
      && s.metadata.isInterpolated
      && Effect(s.mediaUrl, s.metadata, settings, interpolate2, fileNameByState, download2).metadata.isInterpolated
  {
  }

  /**
   * The stage does not consult the interpolated flag: on a video already
   * marked interpolated it still calls the service with the old locator,
   * and once the service and the download succeed it overwrites the locator
   * with the new download, named for the video's state before the run.
   */
  lemma FlagNotConsulted(
    mediaUrl: Option<string>, metadata: Metadata, settings: BuildSettings,
    interpolate: Option<string> -> Option<string>,
    fileNameByState: (Metadata, Option<string>, BuildSettings) -> string,
    download: (string, string) -> Option<string>)
    requires metadata.isInterpolated
    ensures
      var s := Effect(mediaUrl, metadata, settings, interpolate, fileNameByState, download);
      && (s.outcome == Fail(GatewayFailed) <==> interpolate(mediaUrl).None?)
      && (interpolate(mediaUrl).Some? ==>
            var path := download(interpolate(mediaUrl).value, fileNameByState(metadata, mediaUrl, settings));
            path.Some? ==>
              && s.mediaUrl == Some(path.value)
              && s.metadata == metadata
              && (s.outcome == Pass <==> path.value != ""))
  {
  }
}
