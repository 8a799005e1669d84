/** `VideoTool`: an event emitter that owns one video, its options and an id,
    and whose `applyWatermark` builds an ffmpeg command and settles a promise
    from the command's callbacks. */
module VideoTools {
  import opened JsValues
  import opened TaskId
  import opened WatermarkPlan
  import opened Settlement

  /** A listener registered on the tool with `tool.on(event, ...)`: one that
      relays what it receives to the renderer on `channel` (`undefined` is
      None), or one that only records its calls, as the jest mocks do. */
  datatype Listener =
    | Relay(event: string, channel: Option<string>)
    | Recorder(event: string)

  class VideoTool {
    const videoPath: string
    const videoName: string
    const options: VideoToolOptions
    const id: string
    /** Every event the tool has emitted without throwing, in order. */
    var signals: seq<Signal>
    var listeners: seq<Listener>

    /** Some listener is registered for `'error'`. */
    predicate ErrorListened()
      reads this
    {
      exists i :: 0 <= i < |listeners| && listeners[i].event == "error"
    }

    /** `time` is `new Date().getTime()`, `draw` is `Math.floor(Math.random() * 1000)`. */
    constructor (videoPath: string, videoName: string, options: VideoToolOptions, time: nat, draw: nat)
      requires draw < 1000
      ensures this.videoPath == videoPath && this.videoName == videoName && this.options == options
      ensures id == IdOf(time, draw)
      ensures signals == [] && listeners == []
    {
      this.videoPath := videoPath;
      this.videoName := videoName;
      this.options := options;
      this.id := IdOf(time, draw);
      signals := [];
      listeners := [];
    }

    /** `tool.on(l.event, ...)`. */
    method On(l: Listener)
      modifies this
      ensures listeners == old(listeners) + [l]
      ensures signals == old(signals)
      ensures ErrorListened() <==> old(ErrorListened()) || l.event == "error"
    {
      ghost var before := listeners;
      listeners := listeners + [l];
      assert listeners[|before|] == l;
      assert forall i :: 0 <= i < |before| ==> listeners[i] == before[i];
    }

    /** `this.emit(...)`. As for every Node `EventEmitter`, emitting `'error'`
        while no `'error'` listener is registered throws instead of
        delivering; every other event is delivered whether or not anyone
        listens. */
    method Emit(s: Signal) returns (threw: bool)
      modifies this
      ensures threw <==> s.ErrorSignal? && !old(ErrorListened())
      ensures signals == old(signals) + (if threw then [] else [s])
      ensures listeners == old(listeners)
    {
      threw := s.ErrorSignal? && !ErrorListened();
      if !threw {
        signals := signals + [s];
      }
    }

    /** Builds the command, registers the four callbacks and saves to the
      output path. The returned command stands for the pending promise and the
      callbacks ffmpeg will fire on it. */
    method ApplyWatermark(join: (string, string) -> string) returns (command: Command)
      ensures fresh(command) && command.tool == this
      ensures command.ops == Plan(videoPath, videoName, options, join)
      ensures command.outputPath == OutputPath(videoName, options, join)
      ensures command.Valid() && command.promise == Pending && command.delivered == []
    {
      var outputPath := join(options.outputPath, OutputFileName(videoName, options));
      var ops := [Open(videoPath)];
      match options.watermark {
        case None =>
        case Some(w) =>
          match w {
            case TextMark(t) =>
              ops := ops + [VideoFilters("drawtext", DrawTextOptions(
                t.fontPath, t.text, t.fontSize, t.fontColor, t.position.x, t.position.y))];
            case ImageMark(i) =>
              ops := ops + [Input(i.imagePath)];
              var target := i.position.x.ToStr() + ":" + i.position.y.ToStr();
              var graph := "overlay=" + target;
              if i.scale.Some? && i.scale.value.Truthy() && !i.scale.value.IsOne() {
                graph := "[1:v]scale=iw*" + i.scale.value.ToStr() + ":-1[wm];[0:v][wm]overlay=" + target;
              }
              assert graph == OverlayGraph(i);
              ops := ops + [ComplexFilter(graph)];
            case OtherMark(_) =>
          }
      }
      assert ops == [Open(videoPath)] + WatermarkOps(options.watermark);
      ops := ops + [Save(outputPath)];
      command := new Command(this, ops, outputPath);
    }
  }

  /** The ffmpeg command of one `applyWatermark` call, with its callbacks
      attached, together with the promise those callbacks settle. */
  class Command {
    const tool: VideoTool
    /** The builder calls made on the command, in order. */
    const ops: seq<Op>
    const outputPath: string
    var promise: Promise
    /** The callbacks ffmpeg has fired so far, each with whether the tool had
        an `'error'` listener at the time. */
    ghost var delivered: seq<Delivery>

    ghost predicate Valid()
      reads this
    {
      promise == SettleAll(Pending, outputPath, delivered)
    }

    constructor (tool: VideoTool, ops: seq<Op>, outputPath: string)
      ensures this.tool == tool && this.ops == ops && this.outputPath == outputPath
      ensures promise == Pending && delivered == [] && Valid()
    {
      this.tool := tool;
      this.ops := ops;
      this.outputPath := outputPath;
      promise := Pending;
      delivered := [];
    }

    /** The `start` callback: forwarded with the tool's id. */
    method OnStart(commandLine: string)
      requires Valid()
      modifies this, tool
      ensures Valid() && delivered == old(delivered) + [Delivery(Started(commandLine), old(tool.ErrorListened()))]
      ensures promise == old(promise)
      ensures tool.signals == old(tool.signals) + [StartSignal(tool.id, commandLine)]
      ensures tool.listeners == old(tool.listeners)
    {
      var d := Delivery(Started(commandLine), tool.ErrorListened());
      var _ := tool.Emit(StartSignal(tool.id, commandLine));
      SettleAllSnoc(Pending, outputPath, delivered, d);
      delivered := delivered + [d];
    }

    /** The `progress` callback: forwarded unchanged with the tool's id. */
    method OnProgress(progress: JsValue)
      requires Valid()
      modifies this, tool
      ensures Valid() && delivered == old(delivered) + [Delivery(Progressed(progress), old(tool.ErrorListened()))]
      ensures promise == old(promise)
      ensures tool.signals == old(tool.signals) + [ProgressSignal(tool.id, progress)]
      ensures tool.listeners == old(tool.listeners)
    {
      var d := Delivery(Progressed(progress), tool.ErrorListened());
      var _ := tool.Emit(ProgressSignal(tool.id, progress));
      SettleAllSnoc(Pending, outputPath, delivered, d);
      delivered := delivered + [d];
    }

    /** The `error` callback: emits `error` with the tool's id, then rejects
        the promise with the same error unless it has already settled. When the
        tool has no `'error'` listener the `emit` throws (`threw`), the
        exception leaves the callback and `reject(err)` is never reached. */
    method OnError(err: JsValue) returns (threw: bool)
      requires Valid()
      modifies this, tool
      ensures threw <==> !old(tool.ErrorListened())
      ensures Valid() && delivered == old(delivered) + [Delivery(Failed(err), !threw)]
      ensures old(promise).Pending? && !threw ==> promise == Rejected(err)
      ensures !old(promise).Pending? || threw ==> promise == old(promise)
      ensures tool.signals == old(tool.signals) + (if threw then [] else [ErrorSignal(tool.id, err)])
      ensures tool.listeners == old(tool.listeners)
    {
      threw := tool.Emit(ErrorSignal(tool.id, err));
      if !threw && promise.Pending? {
        promise := Rejected(err);
      }
      var d := Delivery(Failed(err), !threw);
      SettleAllSnoc(Pending, outputPath, delivered, d);
      delivered := delivered + [d];
    }

    /** The `end` callback: emits `end` with the tool's id and the output path,
        and resolves the promise to that path unless it has already settled. */
    method OnEnd()
      requires Valid()
      modifies this, tool
      ensures Valid() && delivered == old(delivered) + [Delivery(Ended, old(tool.ErrorListened()))]
      ensures old(promise).Pending? ==> promise == Resolved(outputPath)
      ensures !old(promise).Pending? ==> promise == old(promise)
      ensures tool.signals == old(tool.signals) + [EndSignal(tool.id, outputPath)]
      ensures tool.listeners == old(tool.listeners)
    {
      var d := Delivery(Ended, tool.ErrorListened());
      var _ := tool.Emit(EndSignal(tool.id, outputPath));
      if promise.Pending? {
        promise := Resolved(outputPath);
      }
      SettleAllSnoc(Pending, outputPath, delivered, d);
      delivered := delivered + [d];
    }
  }

  /** The success path of the jest file's cases, on any video and options:
      after `start` and `end`, the promise resolves to the path the command
      saves to (the last recorded call), and the tool has emitted `start` and
      `end` with its id, `end` carrying that same path. */
  method SuccessRun(videoPath: string, videoName: string, options: VideoToolOptions,
                    join: (string, string) -> string, time: nat, draw: nat, commandLine: string)
    returns (tool: VideoTool, command: Command)
    requires draw < 1000
    ensures tool.id == IdOf(time, draw)
    ensures |command.ops| >= 2 && command.ops[0] == Open(videoPath)
    ensures Last(command.ops) == Save(command.outputPath)
    ensures command.outputPath == OutputPath(videoName, options, join)
    ensures command.promise == Resolved(command.outputPath)
    ensures tool.signals == [StartSignal(tool.id, commandLine), EndSignal(tool.id, command.outputPath)]
  {
    tool := new VideoTool(videoPath, videoName, options, time, draw);
    command := tool.ApplyWatermark(join);
    PlanFrame(videoPath, videoName, options, join);
    command.OnStart(commandLine);
    command.OnEnd();
  }

  /** The failure case of the jest file, whose tool has an `'error'` mock
      registered: `error` rejects with the same error and is emitted with the
      tool's id; an `end` after it leaves the promise rejected. */
  method FailureRun(videoPath: string, videoName: string, options: VideoToolOptions,
                    join: (string, string) -> string, time: nat, draw: nat, err: JsValue)
    returns (tool: VideoTool, command: Command)
    requires draw < 1000
    ensures tool.listeners == [Recorder("error")]
    ensures command.promise == Rejected(err)
    ensures tool.signals == [ErrorSignal(tool.id, err), EndSignal(tool.id, command.outputPath)]
  {
    tool := new VideoTool(videoPath, videoName, options, time, draw);
    tool.On(Recorder("error"));
    command := tool.ApplyWatermark(join);
    var _ := command.OnError(err);
    command.OnEnd();
  }

  /** A tool with only a `'progress'` listener, as `addVideoTask` builds them:
      the `error` callback throws before `reject(err)`, so the promise is still
      pending after it and nothing is emitted; a later `end` resolves the
      promise to the output path. */
  method UnlistenedFailureRun(videoPath: string, videoName: string, options: VideoToolOptions,
                              join: (string, string) -> string, time: nat, draw: nat,
                              channel: Option<string>, err: JsValue)
    returns (tool: VideoTool, command: Command, threw: bool, afterError: Promise)
    requires draw < 1000
    ensures tool.listeners == [Relay("progress", channel)]
    ensures threw && afterError == Pending
    ensures command.promise == Resolved(command.outputPath)
    ensures tool.signals == [EndSignal(tool.id, command.outputPath)]
  {
    tool := new VideoTool(videoPath, videoName, options, time, draw);
    tool.On(Relay("progress", channel));
    command := tool.ApplyWatermark(join);
    threw := command.OnError(err);
    afterError := command.promise;
    command.OnEnd();
  }
}
