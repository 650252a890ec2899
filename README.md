# YOLO object detection app — a Dafny model

This project models the YOLO object detection web application. The browser side covers:
- the detection hook, with the upload flows, status polling and failure handling;
- the HTTP client and its error interceptor;
- the upload panel;
- the webcam panel, with its start sequence, error classifier, stop and model-change effect;
- the advanced settings panel, with presets and browser storage;
- the result view, with its branch order and emoji lookup.

The server side covers:
- the upload validators;
- the model cache;
- the detection service, including normalisation, the stable sort by confidence and the video frame loop;
- the HTTP handlers.

One module stands for each source file. Besides those:
- `Common` holds `Option`/`Result` and small string helpers.
- `Settings` holds the configuration constants and the model catalogue.
- `Wire` holds the shapes exchanged between browser and server.

Code that updates state step by step is written as classes whose methods mutate fields:
- `YoloManager.ModelManager`
- `UseDetection.DetectionHook`
- `WebcamStream.CameraController`
- `AdvancedConfig.ConfigPanel`
- `FileUpload.UploadPanel`

Each such method is tied to a pure transition function (`AfterImage`, `StartState`, `CacheAfter`, …), and the properties are proved about those functions. Detections are sorted by an in-place insertion sort on an array. It is proved equal to a functional stable sort, and that sort is proved ordered, a permutation and stable.

Foreign behaviour enters as parameters:
- the YOLO loader and inference (`Loader`, `ImageIo.infer`);
- image decoding; video capture, per-frame inference, drawing and writing (`VideoIo.infer`, `VideoIo.draw`);
- the HTTP transport (`Api.Reply`), the status answers of the poll (`nat -> PollOutcome`);
- the media devices, the permission query and `getUserMedia` (`CameraEnv`);
- the canvas blob, browser storage (`storage` field), clocks (`now`, `elapsed`) and uuids (`hex`).

The model keeps these behaviours of the code as written:
- After a failed detection the hook's `error` is null. The `catch` branch sets it and then calls `clearResults()`, which clears it again (`UseDetection.FailureLeavesNoError`).
- The client never sends a detection configuration. `detectImage`/`detectVideo` build a form with only the file and the model (`Api.DetectImageRequest`).
- Accepted image types are `image/jpeg`, `image/png` and also `image/jpg`.
- A custom preset's id is `custom-` followed by the clock reading, so it is fresh only when the clock has moved. Deleting removes every custom preset with that id (`AdvancedConfig.RemoveId`, `AdvancedConfig.DeleteUndoesSave`).
- Field values are not range-checked by the change handler. Only the controls (sliders and size buttons) limit them, so `ConfigChange` requires a value a control can produce.
- The model-change effect records the new model only while streaming (`WebcamStream.ModelChangeRecordedLate`).
- The video reply's `total_frames` is the capture's frame-count property, not the number of frames written.

## Model

| member | source | states |
|---|---|---|
| Settings.ModelIds | backend/app/config.py:23-48 | the id set is exactly the ids listed in `available_models` |
| Settings.CatalogueKeys | backend/app/config.py:23-48 | the catalogue map is keyed by exactly the available ids |
| FileValidator.ValidateFile | backend/app/utils/file_validator.py:7-36 | missing file gives 400 "No file provided"; more remaining bytes than the limit gives 413 with the MB text; otherwise a type outside the list gives 400 with type and allowed list; success iff size fits and type allowed, returning the file rewound to 0 |
| FileValidator.ValidateImageDimensions | backend/app/utils/file_validator.py:41-50 | fails iff width exceeds 1920 or height exceeds 1080, and then with status 400 and the detail "Image dimensions too large. Maximum: 1920x1080" |
| FileValidator.ValidateVideoDuration | backend/app/utils/file_validator.py:55-64 | fails iff the duration exceeds 300 s, and then with status 400 and the detail "Video too long. Maximum duration: 300s" |
| FileValidator.TooLargeDetailForDefaultLimit | backend/app/utils/file_validator.py:17-26 | the 50 MiB limit is reported as "File too large. Maximum size: 50.0MB" |
| FileValidator.SizeBoundary | backend/app/utils/file_validator.py:17-26 | a file of exactly the limit with an allowed type passes; a larger one gets 413 whatever its type |
| YoloManager.LoadOutcome | backend/app/models/yolo_manager.py:50-78 | an existing cached weights file is loaded from the cache path; otherwise success iff the download by file name succeeds and the save does not raise, a failed download passes its error through and a failed save gives its message |
| YoloManager.GetModelOutcome | backend/app/models/yolo_manager.py:27-48 | unknown id iff not in the catalogue; a cached model is returned as is; an available id not yet cached succeeds iff loading succeeds, with the loaded model, and otherwise fails with the load error; success implies the id is available |
| YoloManager.CacheAfter | backend/app/models/yolo_manager.py:27-48 | the cache only grows, by at most the requested id, existing entries unchanged; a successful get leaves the returned model cached; a new entry appears only on a successful load |
| YoloManager.LocksAfter | backend/app/models/yolo_manager.py:37-38 | the lock table gains at most the requested id, exactly when it is available and not cached |
| YoloManager.InfoFor | backend/app/models/yolo_manager.py:110-120 | every entry is marked loaded; an id missing from the catalogue falls back to the id as name and an empty file name |
| YoloManager.ModelManager.constructor | backend/app/models/yolo_manager.py:16-20 | both dictionaries start empty and the cache invariant holds |
| YoloManager.ModelManager.LoadModel | backend/app/models/yolo_manager.py:50-78 | returns the load outcome; stores the model only on success; locks untouched; keeps the invariant that cached ids are catalogue ids with locks |
| YoloManager.ModelManager.GetModel | backend/app/models/yolo_manager.py:27-48 | unknown ids and cached ids change nothing; otherwise a lock is created and the load outcome decides result and cache; result, cache and locks equal the pure outcome functions |
| YoloManager.ModelManager.UnloadModel | backend/app/models/yolo_manager.py:100-108 | removes the id from the cache, and from the locks only if it was loaded |
| YoloManager.ModelManager.ClearCache | backend/app/models/yolo_manager.py:122-126 | both dictionaries become empty |
| YoloManager.ModelManager.GetLoadedModelsInfo | backend/app/models/yolo_manager.py:110-120 | one entry per loaded id, each built from the catalogue |
| YoloManager.LoadedInfoUsesCatalogue | backend/app/models/yolo_manager.py:110-120 | under the cache invariant every reported entry carries the catalogue's name and file name |
| DetectionService.ClassName | backend/app/services/detection_service.py:224 | names present: the mapped name, or a KeyError for a missing id; names absent: "class_" followed by the id |
| DetectionService.BoxEntries | backend/app/services/detection_service.py:215-230 | succeeds iff every box's class id is in the names; then one detection per box, in box order, with the class name, confidence and corners of that box; a failure carries the first missing class id |
| DetectionService.Collected | backend/app/services/detection_service.py:206-230 | succeeds iff every result's boxes normalise; then one detection per box over all results; a failure carries the error of the first result that fails |
| DetectionService.CollectedLayout | backend/app/services/detection_service.py:211-230 | on success the entries of result `i` appear, unchanged and in order, as the consecutive block that starts after the boxes of the results before it |
| DetectionService.Insert | backend/app/services/detection_service.py:233 | inserting adds exactly one element |
| DetectionService.SortByConfidence | backend/app/services/detection_service.py:233 | the sort keeps the length |
| DetectionService.InsertBound | backend/app/services/detection_service.py:233 | inserting preserves a common lower bound on confidence |
| DetectionService.InsertSorted | backend/app/services/detection_service.py:233 | inserting into a list sorted by non-increasing confidence keeps it sorted |
| DetectionService.InsertPermutes | backend/app/services/detection_service.py:233 | inserting adds exactly the element to the multiset |
| DetectionService.InsertStable | backend/app/services/detection_service.py:233 | inserting puts the element after its ties |
| DetectionService.SortByConfidenceCorrect | backend/app/services/detection_service.py:233 | the sorted list is ordered by non-increasing confidence and is a permutation of the input |
| DetectionService.SortByConfidenceStable | backend/app/services/detection_service.py:233 | entries of equal confidence keep their input order |
| DetectionService.InsertInPlace | backend/app/services/detection_service.py:233 | one shifting pass over the array inserts `a[i]` into the sorted prefix, leaving the rest untouched |
| DetectionService.SortInPlace | backend/app/services/detection_service.py:233 | the in-place sort leaves exactly the stable descending sort of the original array |
| DetectionService.CollectDetections | backend/app/services/detection_service.py:211-230 | the nested loops build exactly the collected entries, or stop at the first KeyError |
| DetectionService.ProcessDetectionResults | backend/app/services/detection_service.py:206-235 | fails iff a class id is missing from its names; otherwise one entry per box, sorted by non-increasing confidence, a permutation of the collected entries, ties in input order |
| DetectionService.ErrSticks | backend/app/services/detection_service.py:224 | a KeyError on a prefix of a result's boxes is the error of the whole result |
| DetectionService.CollectedErrSticks | backend/app/services/detection_service.py:211-230 | a KeyError on a prefix of the results is the error of all results |
| DetectionService.DetectParams | backend/app/services/detection_service.py:50-56 | the parameters hold `conf` plus exactly the config's keys with its values; `conf` is 0.25 unless the config overrides it |
| DetectionService.Annotate | backend/app/services/detection_service.py:171-174 | an inference error or a missing class id fails the frame with that message; success iff both succeed, and then the frame drawn with the normalised detections sorted by confidence |
| DetectionService.AnnotateFrame | backend/app/services/detection_service.py:171-174 | calls the model with the parameters, normalises and sorts, then draws; its result is the annotation of the frame |
| DetectionService.FramesConsumed | backend/app/services/detection_service.py:161-183 | the loop never consumes more frames than the capture yields, and at least one when one is available |
| DetectionService.FrameLoopError | backend/app/services/detection_service.py:161-183 | no error iff every third frame among those consumed annotates successfully |
| DetectionService.FrameLoopErrorSticks | backend/app/services/detection_service.py:161-183 | the first annotation error stays the first over longer prefixes |
| DetectionService.FrameLoop | backend/app/services/detection_service.py:165-183 | stops at the first sampled frame that fails, with that frame's error as the first error over all consumed frames; otherwise consumes exactly the frames up to the read failure or the frame count; every written frame is annotated or raw by its index |
| DetectionService.VideoFileOutcome | backend/app/services/detection_service.py:128-204 | success iff input and output open, every sampled frame among those consumed annotates with the model and the default-plus-config parameters, and the output file is non-empty; then the result file name and the capture's frame count |
| DetectionService.ProcessVideoFile | backend/app/services/detection_service.py:128-204 | open failures give their messages before anything is written; the parameters are the defaults updated by the config; written frames are the annotated frame on every third index and the raw frame otherwise; processed count is a third of the frames rounded up; failure after opening removes the partial file; the outcome equals the pure outcome |
| DetectionService.ImageOutcome | backend/app/services/detection_service.py:30-85 | decode error is re-raised; oversize dimensions give exactly the dimension validator's 400, "Image dimensions too large. Maximum: 1920x1080"; unknown model gives "Unknown model: id"; past decoding a model error, an inference error or a missing class id is raised as its message; success iff the model is obtained, inference and normalisation succeed and the save does not raise, and then the detections are exactly the normalised detections sorted by confidence, with the static URL, original name, model and "WxH" |
| DetectionService.ProcessImage | backend/app/services/detection_service.py:30-85 | returns exactly the image outcome for the cache before the call, so every clause of that outcome holds of it; the cache changes as `get_model` does when it is reached and not at all otherwise |
| DetectionService.Fps | backend/app/services/detection_service.py:118 | positive elapsed time: fps times elapsed equals the frame count; otherwise 0 |
| DetectionService.VideoOutcome | backend/app/services/detection_service.py:87-126 | temp-write, unknown-model and load errors come first; success iff the model is obtained and the video run with that model and the config succeeds, with URL, name, model, frame count and fps; otherwise the run's error |
| DetectionService.ProcessVideo | backend/app/services/detection_service.py:87-126 | returns exactly the video outcome for the cache before the call, with the config passed through; the cache changes as `get_model` does unless the temporary write failed |
| Routes.GetAvailableModels | backend/app/api/routes.py:24-40 | one model record per catalogue entry in catalogue order, with all its fields; ids are exactly the available ids |
| Routes.ServiceFailure | backend/app/api/routes.py:70-75 | HTTP exceptions pass through; anything else becomes a 500 with the handler's prefix and the message |
| Routes.ImageRoute | backend/app/api/routes.py:43-75 | upload validation first, then "Invalid model: m" as 400; past both checks, success iff the service outcome succeeds, with that response and the elapsed time, and a failure is the service error mapped with "Image processing failed: "; failures only ever carry 400, 413 or 500, and 413 only for oversize files |
| Routes.VideoRoute | backend/app/api/routes.py:78-110 | the same order; past both checks, success iff the service outcome (with no config) succeeds, with that response and the elapsed time, and every failure is a 500 "Video processing failed: …" mapped from the service error |
| Routes.DetectImage | backend/app/api/routes.py:43-75 | the handler's reply equals the image route outcome for the cache before the call, so it holds every clause of that outcome; when the upload is valid, the model available and the image decodes within the dimension limits, the cache and the lock table become what `get_model` leaves, otherwise both are unchanged |
| Routes.DetectVideo | backend/app/api/routes.py:78-110 | the handler's reply equals the video route outcome for the cache before the call, so it holds every clause of that outcome; when the upload is valid, the model available and the temporary copy is written, the cache and the lock table become what `get_model` leaves, otherwise both are unchanged |
| Routes.JoinPath | backend/app/api/routes.py:113-129 | an absolute name replaces the directory, otherwise the two are joined by "/" |
| Routes.VideoStatus | backend/app/api/routes.py:113-129 | ready iff the joined path exists with positive size, and the size is reported exactly when ready |
| Routes.ApiHealth | backend/app/api/routes.py:132-139 | the health body reports "healthy", the time, the number of loaded models and the service name |
| Routes.HealthCountBounded | backend/app/api/routes.py:132-139 | the loaded-model count never exceeds the catalogue size |
| Api.BaseUrl | frontend/src/services/api.ts:4 | a truthy environment value wins, otherwise http://localhost:8000 |
| Api.InterceptorMessage | frontend/src/services/api.ts:23-41 | 413, then 400 with a truthy `detail` or "Bad request", then 500, then a timeout code, then the error's message or "Network error"; never empty |
| Api.Resolve | frontend/src/services/api.ts:23-41 | a delivered body is returned unchanged; a rejection becomes the interceptor message |
| Api.DetectImageRequest | frontend/src/services/api.ts:51-66 | a multipart POST to /api/detect/image with exactly the file and model fields |
| Api.DetectVideoRequest | frontend/src/services/api.ts:69-84 | a multipart POST to /api/detect/video with exactly the file and model fields |
| Api.GetModelsRequest | frontend/src/services/api.ts:45-48 | a GET with no body of the router's `/models` under the `/api` prefix |
| Api.HealthCheckRequest | frontend/src/services/api.ts:87-90 | a GET with no body whose path lies outside the `/api` prefix |
| Api.DetectRequestsShareForm | frontend/src/services/api.ts:51-84 | the two detection requests have the same form and differ in path |
| Api.BadRequestDetailSurvives | frontend/src/services/api.ts:23-41 | a 400 with a detail surfaces that detail, whatever the code and message |
| Api.ClassesDistinct | frontend/src/services/api.ts:23-41 | status checks beat the timeout code and the five fixed messages are distinct |
| UseDetection.FirstReady | frontend/src/hooks/useDetection.ts:94-114 | the earliest ready attempt below the bound, or none if no attempt below the bound is ready |
| UseDetection.PollVideoStatus | frontend/src/hooks/useDetection.ts:94-114 | ends ready iff some attempt within the budget is ready; fetches the status URL once per attempt up to and including the first ready one, or the whole budget |
| UseDetection.FirstReadyExtends | frontend/src/hooks/useDetection.ts:94-114 | a ready attempt found within a smaller budget stays the first within any larger budget |
| UseDetection.PollScenarios | frontend/src/hooks/useDetection.ts:94-114 | five not-ready answers then a ready one stop at the sixth query; thirty failed queries exhaust the 30-attempt budget |
| UseDetection.Cleared | frontend/src/hooks/useDetection.ts:27-34 | clearing resets every field but `isProcessing` to its initial value |
| UseDetection.Caught | frontend/src/hooks/useDetection.ts:51-57 | the catch-then-finally sequence always ends in the initial state, so the error it set is cleared |
| UseDetection.AfterImage | frontend/src/hooks/useDetection.ts:36-58 | never processing and never an error afterwards; a successful reply shows its detections, time and image URL and drops the video URL; any failure resets everything |
| UseDetection.ImageFailureMessage | frontend/src/hooks/useDetection.ts:51-54 | a message is computed iff the reply is not a success, and a rejection yields the interceptor's message |
| UseDetection.VideoFilename | frontend/src/hooks/useDetection.ts:75 | the extracted file name is the last "/"-segment and holds no "/" |
| UseDetection.AfterVideo | frontend/src/hooks/useDetection.ts:60-92 | never processing or erroring afterwards; success with no pollable URL or a ready poll shows the time with no detections and sets the video URL only when polled; failures and poll time-outs reset everything |
| UseDetection.DetectionHook.constructor | frontend/src/hooks/useDetection.ts:19-25 | every field starts at its initial value |
| UseDetection.DetectionHook.ClearResults | frontend/src/hooks/useDetection.ts:27-34 | the new state is the cleared state |
| UseDetection.DetectionHook.Fail | frontend/src/hooks/useDetection.ts:85-91 | the new state is the caught state |
| UseDetection.DetectionHook.ProcessImage | frontend/src/hooks/useDetection.ts:36-58 | sends the image request, shows processing with no error while pending, ends in the image-flow state and reports whether the catch branch ran |
| UseDetection.DetectionHook.ProcessVideo | frontend/src/hooks/useDetection.ts:60-92 | sends the video request; polls iff a successful reply has a pollable URL, and the old video URL is still shown while polling; ends in the video-flow state with at most 30 status fetches, all to that file's URL |
| UseDetection.FailureLeavesNoError | frontend/src/hooks/useDetection.ts:51-57 | a rejected request leaves both flows in the initial state with a null error, though the interceptor message was computed |
| UseDetection.TrailingSlashKeepsOldVideo | frontend/src/hooks/useDetection.ts:73-81 | a video URL ending in "/" is not polled and keeps the previous video URL |
| AdvancedConfig.WithField | frontend/src/components/AdvancedConfig.tsx:88-92 | the chosen field takes the value and every other field is unchanged |
| AdvancedConfig.DefaultsInRange | frontend/src/components/AdvancedConfig.tsx:12-57 | every built-in preset lies within the ranges the controls produce |
| AdvancedConfig.WithFieldKeepsRange | frontend/src/components/AdvancedConfig.tsx:218-301 | setting a field to a value its control can produce keeps the configuration in range |
| AdvancedConfig.AllPresets | frontend/src/components/AdvancedConfig.tsx:131 | the shown list is the four built-ins followed by the custom presets |
| AdvancedConfig.DefaultsNotDeletable | frontend/src/components/AdvancedConfig.tsx:183-193 | no built-in preset shows a delete button |
| AdvancedConfig.CanDelete | frontend/src/components/AdvancedConfig.tsx:183 | a preset with a delete button has an id no built-in preset has |
| AdvancedConfig.ConfigPanel.IsActive | frontend/src/components/AdvancedConfig.tsx:173 | the field by field comparison of the two configurations holds iff they are the same configuration |
| AdvancedConfig.RemoveId | frontend/src/components/AdvancedConfig.tsx:125-129 | a preset is kept iff it was there and has a different id |
| AdvancedConfig.RemoveIdAppend | frontend/src/components/AdvancedConfig.tsx:125-129 | filtering distributes over concatenation, so order is kept |
| AdvancedConfig.RemoveAbsentId | frontend/src/components/AdvancedConfig.tsx:125-129 | filtering by an unused id changes nothing |
| AdvancedConfig.DeleteUndoesSave | frontend/src/components/AdvancedConfig.tsx:105-129 | deleting a just-saved preset with an unused id restores the previous list |
| AdvancedConfig.Trim | frontend/src/components/AdvancedConfig.tsx:106 | the trimmed name neither starts nor ends with white space, and is empty iff the name is all white space |
| AdvancedConfig.NewPreset | frontend/src/components/AdvancedConfig.tsx:105-123 | a custom id, the name as typed, the fixed description and the current configuration |
| AdvancedConfig.ConfigPanel.constructor | frontend/src/components/AdvancedConfig.tsx:64-69 | local config from the prop, no custom presets, empty name, everything closed |
| AdvancedConfig.ConfigPanel.LoadOnMount | frontend/src/components/AdvancedConfig.tsx:72-81 | a parsable stored list becomes the custom list and is mirrored; otherwise the list is unchanged |
| AdvancedConfig.ConfigPanel.ConfigProp | frontend/src/components/AdvancedConfig.tsx:84-86 | a new prop replaces the local configuration and nothing else |
| AdvancedConfig.ConfigPanel.ConfigChange | frontend/src/components/AdvancedConfig.tsx:88-92 | one field changes, the new configuration is notified, and an in-range configuration stays in range |
| AdvancedConfig.ConfigPanel.SelectPreset | frontend/src/components/AdvancedConfig.tsx:94-97 | the preset's configuration replaces the local one, is notified, and the preset is active |
| AdvancedConfig.ConfigPanel.ResetToDefault | frontend/src/components/AdvancedConfig.tsx:99-103 | the Balanced values become active and are notified |
| AdvancedConfig.ConfigPanel.SavePreset | frontend/src/components/AdvancedConfig.tsx:105-123 | a blank name changes nothing; otherwise exactly one new preset is appended, storage mirrors the list, the form closes and the notice shows |
| AdvancedConfig.ConfigPanel.NotificationExpired | frontend/src/components/AdvancedConfig.tsx:122 | the timer hides the notice and nothing else |
| AdvancedConfig.ConfigPanel.DeletePreset | frontend/src/components/AdvancedConfig.tsx:125-129 | the filtered list replaces the custom list and storage mirrors it |
| AdvancedConfig.ConfigPanel.SetPresetName | frontend/src/components/AdvancedConfig.tsx:346 | only the name changes |
| AdvancedConfig.ConfigPanel.ToggleSaveForm | frontend/src/components/AdvancedConfig.tsx:322 | only the form flag flips |
| AdvancedConfig.ConfigPanel.CancelSave | frontend/src/components/AdvancedConfig.tsx:362-365 | the form closes and the name empties |
| AdvancedConfig.ConfigPanel.ToggleExpanded | frontend/src/components/AdvancedConfig.tsx:138 | only the expanded flag flips |
| AdvancedConfig.ConfigPanel.CanSave | frontend/src/components/AdvancedConfig.tsx:356 | the save button is enabled iff the name is not all white space |
| AdvancedConfig.BlankExamples | frontend/src/components/AdvancedConfig.tsx:106 | spaces with a non-breaking space count as blank; a padded name trims to its letters |
| WebcamStream.VideoInputs | frontend/src/components/WebcamStream.tsx:23-37 | exactly the devices of kind "videoinput" |
| WebcamStream.CheckCameraAvailability | frontend/src/components/WebcamStream.tsx:23-37 | available iff enumeration succeeds with some video input; the devices are the video inputs; a throwing enumeration gives none |
| WebcamStream.CameraErrorMessage | frontend/src/components/WebcamStream.tsx:39-62 | each of the six named errors gets its message; otherwise a message mentioning "video source" gets the video-source text, else the generic prefix with the message or "Error desconocido" |
| WebcamStream.EmptyErrorMessage | frontend/src/components/WebcamStream.tsx:39-62 | an error with no (or empty) name and message gets the generic text with the fallback |
| WebcamStream.StartCalls | frontend/src/components/WebcamStream.tsx:64-142 | the enumeration always comes first; no devices stops there; `getUserMedia(640x480, user)` is called iff devices exist and permission is not denied |
| WebcamStream.StartState | frontend/src/components/WebcamStream.tsx:64-142 | no devices, denied permission and acquisition errors each set their message and mark permission false; an acquired stream with the video element present clears the error, becomes the source and the held stream, attaches the handlers and orphans the previous stream; without the element it sets the missing-element message and orphans the new stream; orphaned streams only accumulate |
| WebcamStream.LoadedState | frontend/src/components/WebcamStream.tsx:102-112 | playback success starts streaming with permission granted and no error; failure sets the play error |
| WebcamStream.VideoErrorState | frontend/src/components/WebcamStream.tsx:114-119 | once handlers are attached, the element error stops streaming with its message |
| WebcamStream.FallbackState | frontend/src/components/WebcamStream.tsx:122-132 | the timer starts streaming iff the element is present without error and play succeeds, whatever the current streaming flag |
| WebcamStream.StopState | frontend/src/components/WebcamStream.tsx:144-155 | not streaming, no stream held, the element detached, the held stream's tracks appended to the stopped ones, everything else kept |
| WebcamStream.ModelEffectState | frontend/src/components/WebcamStream.tsx:194-201 | a changed model while streaming stops the camera and records the model; otherwise nothing changes |
| WebcamStream.CameraController.constructor | frontend/src/components/WebcamStream.tsx:15-21 | not streaming, no error, unknown permission, no stream, no tracks stopped |
| WebcamStream.CameraController.StartCamera | frontend/src/components/WebcamStream.tsx:64-142 | makes exactly the start calls and ends in the start state, so every branch of that state holds of the panel |
| WebcamStream.CameraController.OnLoadedMetadata | frontend/src/components/WebcamStream.tsx:102-112 | the new state is the loaded-metadata state |
| WebcamStream.CameraController.OnVideoError | frontend/src/components/WebcamStream.tsx:114-119 | the new state is the element-error state |
| WebcamStream.CameraController.OnFallbackTimer | frontend/src/components/WebcamStream.tsx:122-132 | the new state is the fallback state |
| WebcamStream.CameraController.StopCamera | frontend/src/components/WebcamStream.tsx:144-155 | stops every held track in order and ends in the stop state |
| WebcamStream.CameraController.CaptureFrame | frontend/src/components/WebcamStream.tsx:157-184 | calls back iff streaming with element, canvas, context and a blob, handing over "webcam-capture.jpg" as JPEG with the current model |
| WebcamStream.CameraController.ModelEffect | frontend/src/components/WebcamStream.tsx:194-201 | the new state is the model-effect state |
| WebcamStream.StopIdempotent | frontend/src/components/WebcamStream.tsx:144-155 | stopping twice is the same as stopping once |
| WebcamStream.StopStopsHeldTracks | frontend/src/components/WebcamStream.tsx:144-155 | stopping stops every track of the held stream and no others |
| WebcamStream.ModelChangeRecordedLate | frontend/src/components/WebcamStream.tsx:194-201 | a model switch while stopped is ignored; after a successful start the effect stops the camera, stops its tracks and only then records the model |
| WebcamStream.FallbackAfterStop | frontend/src/components/WebcamStream.tsx:122-132 | a fallback firing after a stop, if `play()` then resolves, marks the panel streaming with no stream held |
| WebcamStream.RestartOrphansStream | frontend/src/components/WebcamStream.tsx:64-142 | starting again while a stream is held replaces it without stopping its tracks |
| FileUpload.ValidateFile | frontend/src/components/FileUpload.tsx:29-42 | too large first, then invalid type; valid iff within 50 MiB and an accepted image or video type |
| FileUpload.UploadCallFor | frontend/src/components/FileUpload.tsx:72-91 | an image goes to the image callback, a video to the video callback, nothing otherwise |
| FileUpload.UploadPanel.constructor | frontend/src/components/FileUpload.tsx:17-20 | no selection and no error |
| FileUpload.UploadPanel.HandleFileSelect | frontend/src/components/FileUpload.tsx:44-53 | an invalid file only sets its error; a valid one is selected and the error cleared; a held selection always passes the checks |
| FileUpload.UploadPanel.HandleFiles | frontend/src/components/FileUpload.tsx:55-70 | only the first of the dropped or chosen files is considered; an empty list changes nothing |
| FileUpload.UploadPanel.HandleProcess | frontend/src/components/FileUpload.tsx:72-91 | calls the callback matching the selection; the selection is cleared unless the callback throws |
| FileUpload.UploadPanel.ClearSelection | frontend/src/components/FileUpload.tsx:93-99 | selection and error are cleared |
| FileUpload.SelectionAlwaysDispatched | frontend/src/components/FileUpload.tsx:72-91 | a file that passed the checks always reaches one of the two callbacks |
| FileUpload.EnabledProcessDispatches | frontend/src/components/FileUpload.tsx:195 | whenever the process button is enabled, pressing it reaches the image or the video callback with the selected file |
| FileUpload.ProcessEnabled | frontend/src/components/FileUpload.tsx:195 | enabled only with a file and nothing processing; a non-empty error disables it; with no error or an empty one it is enabled iff a file is selected and nothing is processing |
| FileUpload.ClientAgreesWithServer | frontend/src/components/FileUpload.tsx:29-42 | for images and videos the client's checks accept exactly what the server's upload validation accepts, and an oversize file also gets 413 from the server |
| DetectionResultView.ToLower | frontend/src/components/DetectionResult.tsx:163 | lower-casing keeps the length and maps each character |
| DetectionResultView.KeyIndexFrom | frontend/src/components/DetectionResult.tsx:158-160 | the first entry whose key equals the class, or none iff no key does |
| DetectionResultView.PartialIndexFrom | frontend/src/components/DetectionResult.tsx:163-168 | the first entry whose key contains or is contained in the class, or none iff none does |
| DetectionResultView.EmojiFor | frontend/src/components/DetectionResult.tsx:156-172 | the first exact key's emoji; failing that the first partial match's; failing that the package emoji; always a table emoji or the default |
| DetectionResultView.GetObjectEmoji | frontend/src/components/DetectionResult.tsx:156-172 | for the lowercased class over the emoji table: the first exact key's emoji; failing that the first partial match's; failing that the package emoji; always a table emoji or the default |
| DetectionResultView.RepeatedKeysAgree | frontend/src/components/DetectionResult.tsx:6-153 | the keys the table lists twice (keyboard, toothbrush, bowl) carry the same emoji both times |
| DetectionResultView.PersonAnyCase | frontend/src/components/DetectionResult.tsx:156-160 | any capitalisation of "person" gets the person emoji |
| DetectionResultView.PersonWinsPartialMatch | frontend/src/components/DetectionResult.tsx:163-168 | a class with no exact key that contains "person", or that "person" contains, gets the person emoji, because that entry comes first |
| DetectionResultView.EmptyClassMatchesFirstEntry | frontend/src/components/DetectionResult.tsx:163-168 | an empty class partially matches the first entry, the person |
| DetectionResultView.CountLabel | frontend/src/components/DetectionResult.tsx:252 | "Found n object", followed by "s" exactly when n is not 1 |
| DetectionResultView.PluralUnlessOne | frontend/src/components/DetectionResult.tsx:252 | the label has no plural "s" iff there is exactly one detection |
| DetectionResultView.Rows | frontend/src/components/DetectionResult.tsx:247-289 | one row per detection, in order |
| DetectionResultView.MediaSrc | frontend/src/components/DetectionResult.tsx:292-326 | media is shown iff the URL is truthy, prefixed by the API origin |
| DetectionResultView.Render | frontend/src/components/DetectionResult.tsx:192-343 | spinner iff processing; else the error panel iff an error; else the placeholder iff nothing to show; else the results with the detection list or the video notice, media and footer |
| DetectionResultView.PropsOf | frontend/src/components/DetectionResult.tsx:174-182 | the view reads exactly the hook's fields |
| DetectionResultView.FinishedRequestNeverShowsError | frontend/src/components/DetectionResult.tsx:192-233 | after either flow finishes, the view shows neither the spinner nor the error panel |
| DetectionResultView.FailureShowsPlaceholder | frontend/src/components/DetectionResult.tsx:192-233 | a failed flow, like the initial state, shows the placeholder rather than an error |

## Left out

- Concurrency is modelled sequentially: the `asyncio` locks in `YoloManager.ModelManager.GetModel`, its double-check under the lock, overlapping browser requests and late replies.
- `YoloManager.ModelManager.GetModel`: a lock entry exists before loading only as a map entry; a load racing another caller is not modelled.
- Timers are events or are dropped. These are the 1 s wait between polls, the 2 s camera fallback (`OnFallbackTimer`), the 3 s notice (`NotificationExpired`) and the 30 s client timeout (an `ECONNABORTED` code).
- Floating point: confidence and IoU in the settings panel are integer hundredths. Server confidences, boxes, times and frame rates are exact reals, and `toFixed` formatting is not modelled.
- The frontend's `formatFileSize` and other purely presentational parts are not modelled: CSS classes, icons, drag highlighting, resetting the file input's value, slider labels.
- YOLO inference, `Image.open`, `cv2` capture and writing, `_draw_detections`, and removing the temporary video file are foreign. They enter as oracles: the video side's inference receives the model and the parameters, and its drawing receives the frame and the sorted detections. The drawn pixels are not modelled.
- The framework's own 422 reply to a request without the `file` field is not modelled. `Routes.ImageRoute` and `Routes.VideoRoute` keep the handlers' `if not file` guard, although a request through the route never reaches it.
- Creating the `static` and model directories at start-up, and all logging, are not modelled.
- `DetectionResultView.ToLower` lowers ASCII letters only, and so does `DetectionResultView.GetObjectEmoji`, which applies it; JavaScript's full Unicode case mapping is not modelled.
- `DetectionResultView.EmojiFor` looks keys up in the literal table only, and so does `DetectionResultView.GetObjectEmoji`, which applies it to the lowercased class. Keys inherited through the object's prototype (`OBJECT_EMOJIS["constructor"]`) are not modelled.
- `AdvancedConfig.ConfigPanel.IsActive` compares the four fields where the source compares `JSON.stringify` texts; the serialisation itself is not modelled. Stored presets are values, so `JSON.parse` of a list that is not of presets is not modelled.
- `AdvancedConfig.ConfigPanel.LoadOnMount`: a stored value is either a preset list or unparsable text.
- `WebcamStream.CameraController.OnFallbackTimer`: whether `play()` resolves is a free parameter, even when no source is attached to the element (after a stop `srcObject` is null and the browser would have nothing to play).
- `WebcamStream.CameraController`: each event handler is a method that may be called at any time. How often the browser fires them is not modelled.
- `UseDetection.PollVideoStatus` models a status answer as ready, not ready, or a failed fetch/parse; the JSON body beyond `ready` is not read.
- The application shell, the model selector and the server entry points (`App.tsx`, `ModelSelector.tsx`, `main.py`) are not part of this model.
- `frontend/src/types/index.ts` declares no `DetectionConfig` or `DetectionPreset`; their fields are taken from how the settings panel uses them.
- The `classes` field of a detection configuration is absent from the settings panel and from the model.
