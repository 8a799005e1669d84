/** The main-process handlers for video tasks: `addVideoTask` builds one tool per
    requested file and hands it to the video queue, `startVideoTask` starts the
    queue and `drainVideoQueue` waits for it. The queue itself is an external
    scheduler; here it is only the record of the calls made on it. */
module VideoRouter {
  import opened JsValues
  import opened TaskId
  import opened WatermarkPlan
  import opened VideoTools

  /** The string-valued top-level entries of the router configuration (the
      nested `open` and `on` groups are not among them). */
  const RouteNames: map<string, string> := map[
    "startTask" := "startTask",
    "addTask" := "addTask",
    "composite" := "composite",
    "compositeFail" := "compositeFail",
    "createBgImg" := "createBgImg",
    "getConfig" := "getConfig",
    "setConfig" := "setConfig",
    "resetConfig" := "resetConfig",
    "getFontList" := "getFontList",
    "addFont" := "addFont",
    "delFont" := "delFont",
    "miniSize" := "miniSize",
    "closeApp" := "closeApp",
    "getExitInfo" := "getExitInfo",
    "uploadExifImg" := "uploadExifImg",
    "pathInfo" := "pathInfo",
    "logoList" := "logoList",
    "genTextImg" := "genTextImg",
    "genMainImgShadow" := "genMainImgShadow",
    "drainQueue" := "drainQueue",
    "pathJoin" := "pathJoin",
    "addVideoTask" := "addVideoTask",
    "startVideoTask" := "startVideoTask",
    "drainVideoQueue" := "drainVideoQueue"]

  /** The channel names grouped under the configuration's `on` key. */
  const EventChannels: map<string, string> := map[
    "createMask" := "on:createMask",
    "taskStart" := "on:taskStart",
    "faildTask" := "on:faildTask",
    "progress" := "on:progress",
    "composite" := "on:composite",
    "assetsUpdate" := "on:assetsUpdate",
    "genTextImg" := "on:genTextImg",
    "genMainImgShadow" := "on:genMainImgShadow",
    "onVideoProgress" := "on:video-progress"]

  function Lookup(m: map<string, string>, key: string): Option<string> {
    if key in m then Some(m[key]) else None
  }

  /** `routerConfig.onVideoProgress`, the channel the progress relay sends on. */
  function ProgressChannel(): Option<string> {
    Lookup(RouteNames, "onVideoProgress")
  }

  /** The relay reads a top-level key that does not exist: the channel is
      `undefined`, while the intended name sits under `on`. */
  lemma ProgressChannelIsUndefined()
    ensures ProgressChannel() == None
    ensures Lookup(EventChannels, "onVideoProgress") == Some("on:video-progress")
  {
  }

  /** A key of a `Partial<...>` object: missing, or present with a value. */
  datatype Field<T> = Absent | Present(value: T)

  /** `Partial<VideoToolOptions>`. A watermark or file name that is present but
      `undefined` is `Present(None)`. */
  datatype PartialOptions = PartialOptions(
    watermark: Field<Option<Watermark>>,
    outputPath: Field<string>,
    outputFileName: Field<Option<string>>)

  datatype StartVideoTaskData = StartVideoTaskData(path: string, name: string, options: Option<PartialOptions>)

  datatype VideoInfo = VideoInfo(id: string, path: string, name: string)

  /** The two values the handler reads from the main process's configuration:
      `config.output.path` and `config.options.videoWatermark`. */
  datatype MainConfig = MainConfig(outputPath: string, videoWatermark: Option<Watermark>)

  /** The clock reading and random draw a tool's constructor takes its id from. */
  datatype Stamp = Stamp(time: nat, draw: nat)

  function Override<T>(base: T, f: Field<T>): T {
    match f
    case Absent => base
    case Present(v) => v
  }

  /** `{ outputPath: config.output.path, watermark: config.options.videoWatermark,
      ...(fileInfo.options || {}) }`. */
  function TaskOptions(conf: MainConfig, options: Option<PartialOptions>): VideoToolOptions {
    var base := VideoToolOptions(conf.videoWatermark, conf.outputPath, None);
    match options
    case None => base
    case Some(p) => VideoToolOptions(
      Override(base.watermark, p.watermark),
      Override(base.outputPath, p.outputPath),
      Override(base.outputFileName, p.outputFileName))
  }

  /** Per-file options take precedence key by key: a key present in the file's
      options wins, a missing key keeps the configured default, and no options
      at all leave every default (and no custom file name). */
  lemma TaskOptionsPrecedence(conf: MainConfig, options: Option<PartialOptions>)
    ensures var o := TaskOptions(conf, options);
      && (options.None? ==> o == VideoToolOptions(conf.videoWatermark, conf.outputPath, None))
      && (options.Some? && options.value.outputPath.Present? ==> o.outputPath == options.value.outputPath.value)
      && (options.Some? && options.value.outputPath.Absent? ==> o.outputPath == conf.outputPath)
      && (options.Some? && options.value.watermark.Present? ==> o.watermark == options.value.watermark.value)
      && (options.Some? && options.value.watermark.Absent? ==> o.watermark == conf.videoWatermark)
      && (options.Some? && options.value.outputFileName.Present? ==> o.outputFileName == options.value.outputFileName.value)
      && (options.Some? && options.value.outputFileName.Absent? ==> o.outputFileName.None?)
  {
  }

  /** Empty per-file options behave as no options. */
  lemma EmptyOptionsKeepDefaults(conf: MainConfig)
    ensures TaskOptions(conf, Some(PartialOptions(Absent, Absent, Absent))) == TaskOptions(conf, None)
  {
  }

  /** `videoToolQueue`, seen only through what is asked of it: the tools added
      in order, and how often it was told to run and to drain. */
  class VideoToolQueue {
    var added: seq<VideoTool>
    var runs: nat
    var drains: nat

    constructor ()
      ensures added == [] && runs == 0 && drains == 0
    {
      added := [];
      runs := 0;
      drains := 0;
    }

    method Add(tool: VideoTool)
      modifies this
      ensures added == old(added) + [tool]
      ensures runs == old(runs) && drains == old(drains)
    {
      added := added + [tool];
    }

    method Run()
      modifies this
      ensures runs == old(runs) + 1
      ensures added == old(added) && drains == old(drains)
    {
      runs := runs + 1;
    }

    method Drain()
      modifies this
      ensures drains == old(drains) + 1
      ensures added == old(added) && runs == old(runs)
    {
      drains := drains + 1;
    }
  }

  /** Tool t is the one `addVideoTask` builds for file f with clock stamp s:
      its video, name and merged options, and the id from the stamp. */
  predicate BuiltFor(t: VideoTool, f: StartVideoTaskData, s: Stamp, conf: MainConfig) {
    && t.videoPath == f.path
    && t.videoName == f.name
    && t.options == TaskOptions(conf, f.options)
    && t.id == IdOf(s.time, s.draw)
  }

  /** Nothing emitted yet, and the progress relay on `channel` is the one
      listener registered. */
  ghost predicate Relaying(t: VideoTool, channel: Option<string>)
    reads t
  {
    t.signals == [] && t.listeners == [Relay("progress", channel)]
  }

  /** A tool as the handler leaves it has no `'error'` listener: while no one
      else registers one, an ffmpeg error makes its `emit('error', ...)` throw
      and leaves its promise unsettled (`VideoTools.Command.OnError`). */
  lemma RelayingToolHasNoErrorListener(t: VideoTool, channel: Option<string>)
    requires Relaying(t, channel)
    ensures !t.ErrorListened()
  {
  }

  /** The body of the handler's loop for one entry: a tool on the entry's video
      with the merged options and the progress relay registered on it, added
      to the queue, and the entry's VideoInfo. */
  method AddOne(queue: VideoToolQueue, conf: MainConfig, fileInfo: StartVideoTaskData, stamp: Stamp,
                channel: Option<string>)
    returns (info: VideoInfo, ghost tool: VideoTool)
    requires stamp.draw < 1000
    modifies queue
    ensures fresh(tool) && BuiltFor(tool, fileInfo, stamp, conf) && Relaying(tool, channel)
    ensures info == VideoInfo(tool.id, fileInfo.path, fileInfo.name)
    ensures queue.added == old(queue.added) + [tool]
    ensures queue.runs == old(queue.runs) && queue.drains == old(queue.drains)
  {
    var videoOptions := TaskOptions(conf, fileInfo.options);
    var t := new VideoTool(fileInfo.path, fileInfo.name, videoOptions, stamp.time, stamp.draw);
    t.On(Relay("progress", channel));
    info := VideoInfo(t.id, fileInfo.path, fileInfo.name);
    queue.Add(t);
    tool := t;
  }

  /** The first |tools| entries of the handler's work: tool i is the one built
      for file i, and VideoInfo i reports its id with the file's path and name. */
  predicate Entries(tools: seq<VideoTool>, videoList: seq<VideoInfo>, files: seq<StartVideoTaskData>,
                    stamps: seq<Stamp>, conf: MainConfig)
  {
    && |tools| == |videoList| && |tools| <= |files| && |tools| <= |stamps|
    && forall i :: 0 <= i < |tools| ==>
      BuiltFor(tools[i], files[i], stamps[i], conf)
      && videoList[i] == VideoInfo(tools[i].id, files[i].path, files[i].name)
  }

  lemma EntriesSnoc(tools: seq<VideoTool>, videoList: seq<VideoInfo>, files: seq<StartVideoTaskData>,
                    stamps: seq<Stamp>, conf: MainConfig, tool: VideoTool, info: VideoInfo)
    requires Entries(tools, videoList, files, stamps, conf)
    requires |tools| < |files| && |tools| < |stamps|
    requires BuiltFor(tool, files[|tools|], stamps[|tools|], conf)
    requires info == VideoInfo(tool.id, files[|tools|].path, files[|tools|].name)
    ensures Entries(tools + [tool], videoList + [info], files, stamps, conf)
  {
  }

  /** Every tool has emitted nothing and relays progress. */
  ghost predicate AllRelaying(tools: seq<VideoTool>, channel: Option<string>)
    reads tools
  {
    forall i :: 0 <= i < |tools| ==> Relaying(tools[i], channel)
  }

  /** No tool occurs twice. */
  predicate Distinct(tools: seq<VideoTool>) {
    forall i, j :: 0 <= i < j < |tools| ==> tools[i] != tools[j]
  }

  lemma AllRelayingSnoc(tools: seq<VideoTool>, tool: VideoTool, channel: Option<string>)
    requires AllRelaying(tools, channel) && Relaying(tool, channel)
    ensures AllRelaying(tools + [tool], channel)
  {
  }

  lemma DistinctSnoc(tools: seq<VideoTool>, tool: VideoTool)
    requires Distinct(tools) && forall i :: 0 <= i < |tools| ==> tools[i] != tool
    ensures Distinct(tools + [tool])
  {
  }

  /** The `addVideoTask` handler: one VideoInfo per entry, in order, and one new
      tool per entry appended to the queue in the same order. The queue is only
      added to, never run. */
  method AddVideoTask(queue: VideoToolQueue, conf: MainConfig,
                      fileUrlList: seq<StartVideoTaskData>, stamps: seq<Stamp>, channel: Option<string>)
    returns (videoList: seq<VideoInfo>, ghost tools: seq<VideoTool>)
    requires |stamps| == |fileUrlList|
    requires forall i :: 0 <= i < |stamps| ==> stamps[i].draw < 1000
    modifies queue
    ensures |tools| == |fileUrlList| && Entries(tools, videoList, fileUrlList, stamps, conf)
    ensures queue.added == old(queue.added) + tools
    ensures queue.runs == old(queue.runs) && queue.drains == old(queue.drains)
    ensures fresh(tools)
    ensures AllRelaying(tools, channel) && Distinct(tools)
  {
    videoList := [];
    tools := [];
    var k := 0;
    while k < |fileUrlList|
      invariant 0 <= k <= |fileUrlList| && |tools| == k
      invariant Entries(tools, videoList, fileUrlList, stamps, conf)
      invariant queue.added == old(queue.added) + tools
      invariant queue.runs == old(queue.runs) && queue.drains == old(queue.drains)
      invariant fresh(tools)
      invariant AllRelaying(tools, channel) && Distinct(tools)
    {
      var info;
      ghost var tool;
      info, tool := AddOne(queue, conf, fileUrlList[k], stamps[k], channel);
      EntriesSnoc(tools, videoList, fileUrlList, stamps, conf, tool, info);
      AllRelayingSnoc(tools, tool, channel);
      DistinctSnoc(tools, tool);
      videoList := videoList + [info];
      tools := tools + [tool];
      k := k + 1;
    }
  }

  /** The `startVideoTask` handler: runs the queue and answers true. */
  method StartVideoTask(queue: VideoToolQueue) returns (ok: bool)
    modifies queue
    ensures ok
    ensures queue.runs == old(queue.runs) + 1
    ensures queue.added == old(queue.added) && queue.drains == old(queue.drains)
  {
    queue.Run();
    ok := true;
  }

  /** The `drainVideoQueue` handler: delegates to the queue's drain. */
  method DrainVideoQueue(queue: VideoToolQueue)
    modifies queue
    ensures queue.drains == old(queue.drains) + 1
    ensures queue.added == old(queue.added) && queue.runs == old(queue.runs)
  {
    queue.Drain();
  }
}
