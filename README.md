# Video watermarking and configuration store: a Dafny model

This project models three pieces of the photo/video watermarking desktop app:

- **`VideoTool`** (`electron/src/modules/video-tool/index.ts`). It is an event emitter that owns one video, its options and an id.
  - The id is `<milliseconds>-<draw below 1000>`.
  - `applyWatermark` builds a fluent-ffmpeg command: it opens the video, adds a `drawtext` filter for a text watermark, or a second input and an overlay filter graph for an image watermark, then saves to `path.join(outputPath, outputFileName || "watermarked_" + videoName)`.
  - ffmpeg's `start`, `progress`, `error` and `end` callbacks are re-emitted with the tool's id.
  - The returned promise is settled by the first `end` (resolved to the output path) or the first `error` that fires while the tool has an `'error'` listener (rejected).
  - `VideoTool` is a Node `EventEmitter`, so re-emitting `error` on a tool without an `'error'` listener throws. The callback then stops before its `reject(err)`: the promise stays pending, and only a later `end` would settle it. The handler registers only a `progress` relay on each tool it builds. Unless the video queue engine, which is not part of this model, adds an `'error'` listener of its own, an ffmpeg error never rejects such a tool's promise.
- **The renderer's configuration store** (`web/store/config.ts`).
  - `onConfigUpdate` copies a configuration received from the main process onto the store's record, in place.
  - Two module flags, `initConfig` and `loadConfig`, gate the subscriber that writes the store back through `setConfig`: it writes only when `initConfig && !loadConfig`.
- **The video-task handlers of the main process** (`electron/src/router/video.ts`).
  - `addVideoTask` builds one tool per requested file. Each file's options override the configured output path and watermark key by key. The handler registers a progress relay on each tool, answers with one `{id, path, name}` per file and adds every tool to the video queue.
  - `startVideoTask` runs the queue and `drainVideoQueue` drains it.

Modules:

| file | module | what it holds |
|---|---|---|
| `js_values.dfy` | `JsValues` | JavaScript values as the code reads them: numbers as their canonical text, truthiness, property reads that throw on `undefined`/`null`, `a \|\| b` |
| `task_id.dfy` | `TaskId` | decimal rendering, the id format, parsing an id back |
| `watermark_plan.dfy` | `WatermarkPlan` | options, the recorded ffmpeg builder calls (`Plan`), output name and path, overlay graph |
| `settlement.dfy` | `Settlement` | ffmpeg callbacks, the events re-emitted for them, promise settlement |
| `video_tool.dfy` | `VideoTools` | class `VideoTool` and class `Command` (the command with its callbacks) |
| `config_merge.dfy` | `ConfigMerge` | the store's record as a value, the default configuration, `Merge` (what `onConfigUpdate` does) |
| `config_store.dfy` | `ConfigStore` | the gate as a step function over store states, `OnConfigUpdate` on a mutable record, class `Store` |
| `video_router.dfy` | `VideoRouter` | router channel names, option precedence, the video queue, the three handlers |

Modelling choices:

- **Numbers.** A JavaScript number is modelled as its canonical `String(x)` text (`Number("0.5")`). A number is truthy unless its text is `"0"` or `"NaN"`, and it is `=== 1` when its text is `"1"`. Template literals insert that text.
- **`path.join`** is a function parameter. Its result is never inspected.
- **The clock and `Math.random`** are inputs. A tool's constructor receives the millisecond reading `time` and the draw `draw < 1000`, and `addVideoTask` receives one such stamp per file.
- **The ffmpeg command** is the sequence of builder calls made on it. The callbacks ffmpeg fires are methods of `Command` that the environment calls, in any order.
- **A thrown `emit`** is an out-parameter: `VideoTool.Emit` and `Command.OnError` report `threw` instead of raising.
- **The video queue** (a `TaskQueue` from a module that is not part of this model) is a record of what the handlers ask of it: the tools added in order, and how many runs and drains.
- **The store's asynchronous functions** are split at their `await`. The part before the main process answers and the part after it are separate steps (`StoreAction`), so any interleaving with UI updates is a sequence of steps.

## Model

| member | source | states |
|---|---|---|
| JsValues.Get | web/store/config.ts:78-87 | reading a property throws (None) exactly on `undefined` and `null`; an object yields the key's value or `undefined`; booleans, numbers, strings and arrays yield `undefined` |
| JsValues.Or | web/store/config.ts:87 | `a \|\| b` is `a` when `a` is truthy and `b` otherwise |
| TaskId.Decimal | electron/src/modules/video-tool/index.ts:26 | the rendering of a natural number is a non-empty string of decimal digits |
| TaskId.DecimalRoundTrip | electron/src/modules/video-tool/index.ts:26 | reading the rendering back gives the number |
| TaskId.DecimalOfDrawIsShort | electron/src/modules/video-tool/index.ts:26 | a draw below 1000 renders as one to three digits |
| TaskId.IdOf | electron/src/modules/video-tool/index.ts:26 | an id is the clock's digits, one dash, then the draw's digits |
| TaskId.IdRoundTrip | electron/src/modules/video-tool/index.ts:26 | splitting an id at its first dash and reading both halves recovers the clock reading and the draw |
| TaskId.IdsEqualIff | electron/src/modules/video-tool/index.ts:26 | two ids agree exactly when both clock readings and both draws agree, so two tools made in the same millisecond with the same draw share an id |
| WatermarkPlan.OutputFileName | electron/src/modules/video-tool/index.ts:31 | `outputFileName \|\| "watermarked_" + videoName`; its choice is stated by `OutputFileNameChoice` |
| WatermarkPlan.OutputPath | electron/src/modules/video-tool/index.ts:32 | `path.join(outputPath, outputFileName)` with `join` a parameter; `PlanFrame` states that the save goes there |
| WatermarkPlan.Scaled | electron/src/modules/video-tool/index.ts:64 | `scale && scale !== 1`; its cases are stated by `UnscaledCases` and `OverlayGraphShape` |
| WatermarkPlan.OverlayGraph | electron/src/modules/video-tool/index.ts:61-72 | the string given to `complexFilter`; its shape is stated by `OverlayGraphShape` and the jest cases |
| WatermarkPlan.DrawText | electron/src/modules/video-tool/index.ts:43-53 | the `drawtext` options record; `PlanTextWatermark` states that it copies the text options field for field |
| WatermarkPlan.WatermarkOps | electron/src/modules/video-tool/index.ts:36-75 | the builder calls between open and save; stated per watermark kind by `PlanWithoutWatermark`, `PlanTextWatermark`, `PlanImageWatermark` and `PlanOtherWatermark` |
| WatermarkPlan.Plan | electron/src/modules/video-tool/index.ts:31-98 | every builder call `applyWatermark` makes, in order; its frame is stated by `PlanFrame` and `CountPlan`, and `VideoTool.ApplyWatermark` builds exactly it |
| WatermarkPlan.Count | electron/src/modules/video-tool/index.ts:34-98 | a count of builder calls of one kind is at most the number of calls, and is 0 exactly when no call has that kind |
| WatermarkPlan.CountConcat | electron/src/modules/video-tool/index.ts:34-98 | counting calls is additive over concatenation |
| WatermarkPlan.OutputFileNameChoice | electron/src/modules/video-tool/index.ts:31 | the output name is the given one when it is a non-empty string, `watermarked_<videoName>` otherwise, and is never empty |
| WatermarkPlan.CountPlan | electron/src/modules/video-tool/index.ts:34-98 | the command has one open, one save, and the watermark calls in between |
| WatermarkPlan.PlanFrame | electron/src/modules/video-tool/index.ts:31-98 | for every option set, the command opens on the video first and saves last to `join(outputPath, outputFileName)`, each exactly once, with two to four calls in all |
| WatermarkPlan.PlanWithoutWatermark | electron/src/modules/video-tool/index.ts:36-75 | without a watermark there is no video filter, no complex filter and no extra input: only open and save |
| WatermarkPlan.PlanTextWatermark | electron/src/modules/video-tool/index.ts:38-53 | a text watermark adds exactly one `drawtext` video filter whose options are the text options field for field, and no input or complex filter |
| WatermarkPlan.PlanImageWatermark | electron/src/modules/video-tool/index.ts:54-73 | an image watermark adds the image as the second input, then exactly one complex filter holding the overlay graph, and no video filter |
| WatermarkPlan.PlanOtherWatermark | electron/src/modules/video-tool/index.ts:37-74 | a watermark whose type is neither `text` nor `image` adds nothing |
| WatermarkPlan.OverlayGraphShape | electron/src/modules/video-tool/index.ts:61-72 | the graph always ends in `overlay=X:Y`; it starts with the scaling chain exactly when the scale is truthy and not 1, and is the bare overlay otherwise |
| WatermarkPlan.UnscaledCases | electron/src/modules/video-tool/index.ts:64 | a missing, falsy or exactly-1 scale gives the bare overlay |
| WatermarkPlan.TextWatermarkCase | electron/src/modules/video-tool/index.test.ts:57-96 | the text case: open on `/fake/video.mp4`, the `drawtext` filter with the test's options, save to `join("/fake/output", "watermarked_video.mp4")` |
| WatermarkPlan.UnscaledImageCase | electron/src/modules/video-tool/index.test.ts:103-118 | an image at 20,20 without scale gives the graph `overlay=20:20` |
| WatermarkPlan.ScaledImageCase | electron/src/modules/video-tool/index.test.ts:124-141 | an image at 30,30 with scale 0.5 gives `[1:v]scale=iw*0.5:-1[wm];[0:v][wm]overlay=30:30` |
| WatermarkPlan.CustomFileNameCase | electron/src/modules/video-tool/index.test.ts:200-220 | a custom file name is used as given; without one the name is `watermarked_video.mp4` |
| Settlement.Forward | electron/src/modules/video-tool/index.ts:77-97 | each callback becomes the event of the same name with the tool's id and the callback's payload; `end` carries the output path |
| Settlement.Settle | electron/src/modules/video-tool/index.ts:86-97 | a settled promise ignores every callback; `start`, `progress` and an `error` on a tool without an `'error'` listener never settle it; on a pending promise `end` resolves to the output path and a listened `error` rejects with its error |
| Settlement.SettleAll | electron/src/modules/video-tool/index.ts:86-97 | the promise after a sequence of callbacks, one `Settle` at a time; stated by `SettledStays`, `PendingUntilTerminal`, `FirstTerminalWins` and `UnlistenedErrorsIgnored` |
| Settlement.ForwardAll | electron/src/modules/video-tool/index.ts:77-97 | the events the tool emits for a sequence of callbacks, skipping an `error` whose `emit` throws; stated by `ForwardAllTagged` |
| Settlement.Emitting | electron/src/modules/video-tool/index.ts:86-92 | keeps exactly the callbacks whose `emit` delivers: a callback is in the result if and only if it is in the log and delivers, and the result is no longer than the log |
| Settlement.SettledStays | electron/src/modules/video-tool/index.ts:86-97 | once settled, the promise never changes again |
| Settlement.PendingUntilTerminal | electron/src/modules/video-tool/index.ts:86-97 | the promise stays pending exactly as long as no `end` has fired and no `error` has fired while the tool had an `'error'` listener |
| Settlement.FirstTerminalWins | electron/src/modules/video-tool/index.ts:86-97 | the first deciding callback settles the promise, whatever follows: an `error` on a tool with an `'error'` listener rejects with its error, an `end` resolves to the output path |
| Settlement.UnlistenedErrorsIgnored | electron/src/modules/video-tool/index.ts:90-91 | an `error` whose `emit` throws leaves no trace on the promise: the outcome is what the delivered callbacks alone give |
| Settlement.ForwardAllTagged | electron/src/modules/video-tool/index.ts:77-97 | every delivered callback is re-emitted, in order, with the tool's id, also after the promise has settled; an `error` on a tool without an `'error'` listener emits nothing |
| Settlement.ListenedEmitsAll | electron/src/modules/video-tool/index.ts:86-92 | when the tool has an `'error'` listener throughout, every callback is delivered |
| Settlement.EndCase | electron/src/modules/video-tool/index.test.ts:78-100 | `start` then `end` resolves to the output path and emits `start` and `end` with the id, whatever the listeners |
| Settlement.ErrorThenEndCase | electron/src/modules/video-tool/index.test.ts:160-183 | with an `'error'` listener, `error` then `end` leaves the promise rejected with that error |
| Settlement.UnlistenedErrorCase | electron/src/modules/video-tool/index.ts:86-97 | without an `'error'` listener, `error` leaves the promise pending and emits nothing, and a later `end` resolves it |
| VideoTools.VideoTool.constructor | electron/src/modules/video-tool/index.ts:21-27 | the tool keeps the video path, name and options; its id is `IdOf(time, draw)`; nothing has been emitted or registered |
| VideoTools.VideoTool.On | electron/src/router/video.ts:48-50 | registering a listener appends it and leaves the emitted events alone; the tool has an `'error'` listener afterwards exactly when it had one before or this one is for `'error'` |
| VideoTools.VideoTool.Emit | electron/src/modules/video-tool/index.ts:80-95 | emitting `'error'` with no `'error'` listener throws and records nothing; every other emit appends the event; the listeners are unchanged |
| VideoTools.VideoTool.ApplyWatermark | electron/src/modules/video-tool/index.ts:29-99 | returns a new command whose builder calls are `Plan(...)` and whose output path is `join(outputPath, outputFileName)`, with a pending promise and no callback delivered |
| VideoTools.Command.constructor | electron/src/modules/video-tool/index.ts:30-34 | a new command has a pending promise |
| VideoTools.Command.OnStart | electron/src/modules/video-tool/index.ts:78-81 | emits `start` with the id and the command line; the promise is unchanged |
| VideoTools.Command.OnProgress | electron/src/modules/video-tool/index.ts:82-85 | emits `progress` with the id and the progress value unchanged; the promise is unchanged |
| VideoTools.Command.OnError | electron/src/modules/video-tool/index.ts:86-92 | with an `'error'` listener: emits `error` with the id and the error, rejects a pending promise with it and leaves a settled one alone; without one: the `emit` throws, nothing is emitted and the promise is unchanged |
| VideoTools.Command.OnEnd | electron/src/modules/video-tool/index.ts:93-97 | emits `end` with the id and the output path; resolves a pending promise to that path and leaves a settled one alone |
| VideoTools.SuccessRun | electron/src/modules/video-tool/index.test.ts:57-101 | for any video and options, after `start` and `end` the promise resolves to the path the command saves to, and the tool has emitted exactly `start` and `end` with its id |
| VideoTools.FailureRun | electron/src/modules/video-tool/index.test.ts:160-183 | for any video and options, on a tool with an `'error'` listener, `error` rejects with the same error and a later `end` does not change that; the error is emitted with the tool's id |
| VideoTools.UnlistenedFailureRun | electron/src/modules/video-tool/index.ts:86-97 | on a tool whose only listener is a `progress` relay, `error` throws and leaves the promise pending with nothing emitted; a later `end` resolves it to the output path |
| ConfigMerge.DefaultConfig | web/store/config.ts:34-75 | the store's initial record; `DefaultWatermarkTypeIsNone` states its watermark type |
| ConfigMerge.Merge | web/store/config.ts:77-89 | the record after `onConfigUpdate` and whether it threw; stated by `MergeThrowsIff`, `MergeCopiesFields`, `MergeWatermarkFallback`, `MergeIdempotent` and `MergeForgetsOldRecord` |
| ConfigMerge.MergeThrowsIff | web/store/config.ts:77-89 | the update throws exactly when the received value or its `font` is `undefined`/`null`; on a throw after `options` and `output`, those two stay assigned and nothing else changes |
| ConfigMerge.MergeCopiesFields | web/store/config.ts:78-85 | on an object with a `font` object, options, output, tempFields, customTempFields, temps and staticDir are copied as received, and fontMap and fontDir come from `font.map` and `font.dir` |
| ConfigMerge.MergeWatermarkFallback | web/store/config.ts:87 | `videoWatermark` is taken from the received value when that is truthy and kept otherwise |
| ConfigMerge.MergeIdempotent | web/store/config.ts:77-89 | applying the same received value twice gives what applying it once gives |
| ConfigMerge.MergeForgetsOldRecord | web/store/config.ts:77-89 | a successful update depends on the old record only through the `videoWatermark` fallback |
| ConfigMerge.DefaultWatermarkTypeIsNone | web/store/config.ts:51-52 | the store starts with a watermark whose type is `none` |
| ConfigStore.Notified | web/store/config.ts:118-132 | the persisting subscriber as a state change: it appends the value when `initConfig && !loadConfig`; stated by `AssignedPersistsIff` |
| ConfigStore.Updated | web/store/config.ts:95 | `config.update` with `onConfigUpdate`: the record becomes `Merge`'s and subscribers run unless it threw; stated by `LoadReturnsNotPersisted` and `ResetReturnsCases` |
| ConfigStore.Step | web/store/config.ts:91-134 | one step of the store (load start, load answer, load settled, reset answer, UI set); its effects are stated by `StepExtendsPersisted`, `AssignedPersistsIff`, `LoadReturnsNotPersisted` and `ResetReturnsCases`, and the `Store` methods are proved equal to it |
| ConfigStore.Run | web/store/config.ts:91-134 | a sequence of steps; stated by `RunExtendsPersisted`, `NothingPersistedBeforeInit`, `NothingPersistedDuringLoad` and the startup lemmas |
| ConfigStore.AssignedPersistsIff | web/store/config.ts:118-132 | a UI update is written back exactly when `initConfig && !loadConfig`, and the store then holds the new value |
| ConfigStore.StepExtendsPersisted | web/store/config.ts:118-132 | every step only appends to the values written back |
| ConfigStore.RunExtendsPersisted | web/store/config.ts:118-132 | any sequence of steps only appends to the values written back |
| ConfigStore.NothingPersistedBeforeInit | web/store/config.ts:118-134 | until the first `getConfig` has settled, nothing is ever written back |
| ConfigStore.NothingPersistedDuringLoad | web/store/config.ts:91-100 | while a load is outstanding, nothing is written back and the flag stays set |
| ConfigStore.LoadReturnsNotPersisted | web/store/config.ts:91-100 | the loaded value is applied but not written back; afterwards `loadConfig` is cleared whatever the code, unless applying the answer threw |
| ConfigStore.ResetReturnsCases | web/store/config.ts:102-111 | a reset with a non-zero code changes nothing; with code 0 the answer is applied and written back exactly when the gate is open and applying it did not throw |
| ConfigStore.StartupTrace | web/store/config.ts:134 | when the first answer does not throw, loading it writes nothing back and leaves the gate open with the loaded value (or the default on a non-zero code) |
| ConfigStore.StartupThrows | web/store/config.ts:91-134 | when applying the first answer throws, `getConfig` rejects, `initConfig` is never set and nothing is ever written back |
| ConfigStore.ConfigObject.constructor | web/store/config.ts:34-75 | a record object holds exactly the fields of the value it is made from |
| ConfigStore.ConfigObject.Snapshot | web/main/interface.ts:15-23 | the record object's nine fields as a `ConfigValue`; `OnConfigUpdate` states its new value through it |
| ConfigStore.OnConfigUpdate | web/store/config.ts:77-89 | the record is mutated in place and returned; its new fields, and whether the call threw, are those of `Merge` |
| ConfigStore.Store.constructor | web/store/config.ts:31-34 | the store starts with the default value and both flags false, and the subscriber's first call writes nothing |
| ConfigStore.Store.Notify | web/store/config.ts:118-131 | the subscriber appends the current value to what was written back exactly when the gate is open |
| ConfigStore.Store.Update | web/store/config.ts:95 | an update mutates the record as `Merge` does and notifies the subscriber unless it threw |
| ConfigStore.Store.GetConfigBegin | web/store/config.ts:92-93 | `getConfig` sets `loadConfig` before it waits |
| ConfigStore.Store.GetConfigEnd | web/store/config.ts:94-99 | the rest of `getConfig` applies a code-0 answer and clears `loadConfig`, except when applying the answer threw |
| ConfigStore.Store.GetConfigSettled | web/store/config.ts:134 | the module's `.then` sets `initConfig` |
| ConfigStore.Store.ResetConfigEnd | web/store/config.ts:103-110 | the rest of `resetConfig` applies a code-0 answer and ignores any other |
| ConfigStore.Store.Set | web/store/config.ts:118-132 | a new value set by the UI notifies the persisting subscriber |
| VideoRouter.ProgressChannelIsUndefined | electron/router-config.ts:31-42 | the relay's channel `routerConfig.onVideoProgress` is `undefined`: the key exists only in the `on` group, as `on:video-progress` |
| VideoRouter.Override | electron/src/router/video.ts:43 | one key of the spread: the file's value when the key is present, the default otherwise; stated by `TaskOptionsPrecedence` |
| VideoRouter.TaskOptions | electron/src/router/video.ts:39-44 | the options a file's tool gets; stated by `TaskOptionsPrecedence` and `EmptyOptionsKeepDefaults` |
| VideoRouter.TaskOptionsPrecedence | electron/src/router/video.ts:39-44 | each key present in a file's options wins; every missing key keeps the configured output path or watermark (and no file name); no options keep all defaults |
| VideoRouter.EmptyOptionsKeepDefaults | electron/src/router/video.ts:43 | empty per-file options behave as no options |
| VideoRouter.VideoToolQueue.constructor | electron/src/common/queue.ts:17 | the queue starts with no tools added, no run and no drain |
| VideoRouter.VideoToolQueue.Add | electron/src/router/video.ts:57 | a tool added to the queue is appended to it; runs and drains are unchanged |
| VideoRouter.VideoToolQueue.Run | electron/src/router/video.ts:64 | a run is recorded; the added tools are unchanged |
| VideoRouter.VideoToolQueue.Drain | electron/src/router/video.ts:68 | a drain is recorded; the added tools are unchanged |
| VideoRouter.RelayingToolHasNoErrorListener | electron/src/router/video.ts:48-54 | a tool whose only listener is the progress relay has no `'error'` listener, so `Command.OnError` leaves its promise as it was |
| VideoRouter.AddOne | electron/src/router/video.ts:39-57 | one entry: a new tool on the file's video with the merged options and the stamp's id; the progress relay is its only listener; the tool is added to the queue; the entry's answer is `{tool.id, path, name}` |
| VideoRouter.AddVideoTask | electron/src/router/video.ts:33-61 | one answer per file in order, each built from the file and the id of the new tool made for it; the queue gains exactly those tools, distinct and new, in the same order, each with the progress relay as its only listener; the handler never calls `run` or `drain` |
| VideoRouter.StartVideoTask | electron/src/router/video.ts:63-66 | the queue is run once and the handler answers true |
| VideoRouter.DrainVideoQueue | electron/src/router/video.ts:68 | the queue is drained once |

## Left out

- Spawning ffmpeg, and its console logging: the model records the builder calls and lets the environment fire the callbacks.
- Which callback sequences fluent-ffmpeg actually produces (for example whether an `end` can follow an `error`) is not modelled: the callbacks come in any order.
- What the exception thrown by an unlistened `emit('error', ...)` does after it leaves the callback (an uncaught exception in the main process) is not modelled; the model reports it as `threw` and stops the callback there.
- Floating-point arithmetic: numbers are kept as their decimal text. Whether two numerals denote the same number (`1.0` and `1`) is not modelled.
- VideoRouter.RelayingToolHasNoErrorListener: speaks only of the listeners the handler registers. Whether the queue engine registers listeners of its own on the tools it receives (an `'error'` listener would make an ffmpeg error reject the promise) is not modelled.
- The error value passed to the `error` callback is assumed not to be `undefined` or `null`; fluent-ffmpeg passes an `Error`. For a nullish value, reading `err.message` for the log line would throw before the `emit` and the `reject`, and the model does not capture that.
- The queue engine (`TaskQueue` with concurrency 1) is not part of this model. The handlers are modelled only through what they ask of the queue. How tasks are scheduled, and when `applyWatermark` runs, is not modelled.
- IPC is out of scope: `window.api.*` answers are inputs of the store's steps, and the routers' `listen` registration is not modelled. Sending progress to the window (`webContents.send`) is modelled only as the channel the relay was registered with.
- The toasts shown by `resetConfig` and by a failed write-back, and the write-back's own answer, are user-interface effects with no state.
- `getPathInfo` and the `pathInfo` store are not part of the core.
- JsValues.Get: property reads see only an object's own keys; inherited properties (`toString` and the like) and reads on strings and arrays (`length`, indices) give `undefined`.
- A per-file `outputPath` key that is present with the value `undefined` is not modelled; a present `outputPath` is a string.
- VideoRouter.AddVideoTask takes the relay's channel as a parameter instead of reading it from the router configuration itself. `ProgressChannelIsUndefined` states what that configuration gives.
- The renderer's `videoWatermark` record (`type` with `textOptions` and `imageOptions`) and the `{type, options}` record that `VideoTool` reads are separate types here. What happens when the first is passed where the second is expected is not modelled.
- Concurrency of the JavaScript event loop is modelled only as the order of store steps; no two steps overlap.
