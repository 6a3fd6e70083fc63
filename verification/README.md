# veotools in Dafny

A model of the decision logic inside veotools, a Python toolkit that generates
videos with Google Veo (directly or through the Daydreams Router), plans multi-clip
scenes with Gemini, and stitches clips with ffmpeg or OpenCV. The remote services,
ffmpeg, OpenCV and the file system are left as parameters. What remains is modelled
and proved: the logic that decides which model, parameters, requests, prompts,
frames and files the toolkit uses.

| module | file | models |
|---|---|---|
| `Wrappers` | wrappers.dfy | `Option`, `Result` and the Python exceptions raised (`ValueError`, `RuntimeError`, `FileNotFoundError`, `TypeError`, `AttributeError`, `HTTPError`, `ZeroDivisionError`) |
| `Text` | text.dfy | the `str` methods the code relies on (`startswith`, `endswith`, `in`, `replace(p, "")`, `strip`, `lstrip`, `rstrip`, `split("/")[-1]`, `join`) |
| `Values` | values.dfy | keyword-argument dictionaries as maps to tagged values with Python truthiness |
| `ModelConfig` | model_config.dfy | `ModelConfig` in `src/veotools/core.py` (alias normalisation, router id and slug tables, capabilities, `build_generation_config`) and `ProgressTracker` |
| `Router` | router.dfy | `DaydreamsRouterClient` in `src/veotools/providers/daydreams.py` |
| `Video` | video.dfy | the person-generation policy and the Daydreams text-to-video path of `src/veotools/generate/video.py` |
| `SceneWriter` | scene_writer.dfy | the scene-plan records and `SceneWriter._build_prompt_sections` and the response check of `src/veotools/plan/scene_writer.py` |
| `Executor` | executor.dfy | `execute_scene_plan`, `_default_prompt_builder` and `PlanExecutionResult.to_dict` of `src/veotools/plan/executor.py` |
| `Extractor` | extractor.dfy | `extract_frame`, `extract_frames` and `get_video_info` of `veo_tools/process/extractor.py` |
| `Stitch` | stitch.dfy | `stitch_videos`, `stitch_with_transitions` and `create_transition_points` of `src/veotools/stitch/seamless.py` |
| `VersionCheck` | check_version.dfy | `scripts/check_version.py` |
| `LegacyStitcher` | veo_stitch.dfy | `VeoStitcher` of `veo_stitch.py` |

Modelling conventions:

- An optional string the code only tests for truthiness is a `string`, with `""` standing for both None and empty.
- Durations and frame rates are exact `real`s, not IEEE floats.
- Python's `int()` on a float is `Extractor.Trunc`, which truncates toward zero.
- Remote answers are oracle functions or sequences: the generation of the i-th clip or segment, successive job polls, HTTP responses keyed by request, ffmpeg's outcome for a command.
- A poll loop that would run forever on a service that never finishes runs over a finite sequence of answers. Its extra "still pending" outcome marks the case where the answers run out.
- Progress callbacks are the `reported` log of `ModelConfig.ProgressTracker`, on the Daydreams generation path; the stitcher's reports are left out (below).
- Methods stand for the source's loops and in-place updates: the executor's clip loop, the payload built in place, the poll loop, the filter-graph loop, the line-by-line pyproject reader, the segment loop and the frame-copying loop. Each is proved equal to a function that specifies it, and the properties are lemmas about those functions.

## Model

| member | source | states |
|---|---|---|
| ModelConfig.NormalizeModel | src/veotools/core.py:347-353 | the definition of `normalize_model`: a falsy id is the default model; otherwise strip, drop `models/` when it leads, resolve an alias. Its properties are the contracts of `NormalizeByStages`, `PrefixedIdStages`, `PlainIdIsFixed`, `AliasesResolve` and `BlankIdResolves` |
| ModelConfig.PlainIdIsFixed | src/veotools/core.py:346-353 | a trimmed id without `models/` and with no alias other than itself normalises to itself |
| ModelConfig.CanonicalIds | src/veotools/core.py:286-344 | every `MODELS` key and every `ALIASES` value is one of the five canonical ids |
| ModelConfig.CanonicalIdsArePlain | src/veotools/core.py:286-344 | the canonical ids are non-empty, have no surrounding whitespace and do not start with `models/` |
| ModelConfig.CanonicalIdsAliasThemselves | src/veotools/core.py:286-297 | a canonical id that is an alias key maps to itself |
| ModelConfig.CanonicalIdsAreFixedPoints | src/veotools/core.py:286-353 | normalising a `MODELS` key or an `ALIASES` value returns it unchanged |
| ModelConfig.AliasesResolve | src/veotools/core.py:346-353 | an alias key without the `models/` prefix normalises to its table value |
| ModelConfig.AliasKeysAreTrimmed | src/veotools/core.py:286-297 | no alias key is empty or has whitespace at either end |
| ModelConfig.DropModelsPrefix | src/veotools/core.py:351-352 | the prefix step of `normalize_model`: every `models/` is removed when one leads, and an id without the leading prefix is unchanged, as `DropPrefixOfPrefixed` and `ModelsPrefixIsIgnored` state |
| ModelConfig.DropPrefixOfPrefixed | src/veotools/core.py:351-352 | removing every `models/` from `models/` + m gives m when m does not contain `models/` |
| ModelConfig.ModelsPrefixIsIgnored | src/veotools/core.py:346-353 | for a trimmed id that does not contain `models/`, the prefixed and unprefixed ids normalise alike |
| ModelConfig.ConfigIgnoresModelsPrefix | src/veotools/core.py:371-373 | `get_config` returns the same entry with or without the `models/` prefix |
| ModelConfig.PrefixedIdStages | src/veotools/core.py:350-352 | strip-then-drop-prefix takes both `models/` + m and m to m |
| ModelConfig.NormalizeByStages | src/veotools/core.py:346-353 | a non-empty id normalises to the alias of its stripped, unprefixed form, or that form itself |
| ModelConfig.BlankAfterPrefixSurvives | src/veotools/core.py:350-353 | `models/ veo-3` normalises to ` veo-3`: the blank after the prefix is not stripped |
| ModelConfig.BlankIdResolves | src/veotools/core.py:350-353 | ` veo-3` normalises to `veo-3.0-generate-preview` |
| ModelConfig.NormalizeIsNotIdempotent | src/veotools/core.py:346-353 | normalising `models/ veo-3` twice differs from normalising it once |
| ModelConfig.ToDaydreamsModel | src/veotools/core.py:355-358 | a router id exists exactly when the normalised id is in the router table, and it is `google/veo-3` or `google/veo-3-fast` |
| ModelConfig.SlugTableValues | src/veotools/core.py:306-311 | every slug in the table is non-empty and has no `/` |
| ModelConfig.ToDaydreamsSlug | src/veotools/core.py:360-368 | the slug is the table entry when there is one, otherwise the last `/`-segment of an id containing `/`, otherwise none |
| ModelConfig.RouterIdNormalizes | src/veotools/core.py:286-297 | `google/veo-3` normalises to the Veo 3.0 preview |
| ModelConfig.FastRouterIdNormalizes | src/veotools/core.py:286-297 | `google/veo-3-fast` normalises to the Veo 3.0 Fast preview |
| ModelConfig.RouterIdConverts | src/veotools/core.py:355-368 | `google/veo-3` converts to router id `google/veo-3` and slug `veo-3` |
| ModelConfig.FastRouterIdConverts | src/veotools/core.py:355-368 | `google/veo-3-fast` converts to router id `google/veo-3-fast` and slug `veo-3-fast` |
| ModelConfig.RouterTablesAgree | src/veotools/core.py:299-311 | every id with a router id has a slug, and `google/veo-3` ids carry the `veo-3` slug |
| ModelConfig.RouterIdsAreStable | src/veotools/core.py:355-368 | a router id converts to itself and to the same slug: converting twice changes nothing |
| ModelConfig.GetConfig | src/veotools/core.py:370-373 | the entry of the normalised id when it is a `MODELS` key, else the default model's entry |
| ModelConfig.AllowedAspectRatios | src/veotools/core.py:397-403 | 16:9 is always allowed, 9:16 exactly for `veo-2.0` ids, nothing else |
| ModelConfig.SafetyItems | src/veotools/core.py:415-418 | iterating `safety_settings`: a list gives its items, a string its characters (none usable), None, a bool or an int raise |
| ModelConfig.KeptSettings | src/veotools/core.py:417-430 | the settings passed on are never more than the items given |
| ModelConfig.KeptSettingsEmpty | src/veotools/core.py:418-431 | no setting is kept exactly when no item is a setting object or an acceptable dict |
| ModelConfig.SettingObjectsKept | src/veotools/core.py:418-423 | a list of setting objects is kept whole and in order |
| ModelConfig.NormalizeSafetySettings | src/veotools/core.py:417-430 | the loop keeps objects, converts acceptable dicts and skips the rest, as `KeptSettings` |
| ModelConfig.CollectParams | src/veotools/core.py:381-435 | the ValueError for an unsupported aspect ratio, and for every parameter the exact condition under which it is present and the value it takes |
| ModelConfig.CapabilityParams | src/veotools/core.py:381-407 | the count, duration, enhancement, fps and aspect-ratio parameters, each present exactly under its capability and argument conditions |
| ModelConfig.OptionalParams | src/veotools/core.py:409-435 | the negative prompt, person generation, safety settings and cached content are added exactly when truthy, and nothing else changes |
| ModelConfig.ConstructConfig | src/veotools/core.py:437-442 | an accepted config is what the SDK accepted; the parameters when the SDK accepts them; any exception other than TypeError reaches the caller unretried; after a TypeError the retry drops only the safety settings and cached content, its success is the reduced parameters and its exception reaches the caller |
| ModelConfig.BuildGenerationConfig | src/veotools/core.py:375-442 | the aspect-ratio ValueError and the error for non-iterable safety settings; otherwise exactly the SDK construction (with its retry) applied to parameters collected as `CollectedFrom` states, so an SDK that accepts everything always yields a config; an accepted config has every key as `ConfigFrom` states: the count, duration and fps when supported and given, enhancement exactly when supported, the allowed aspect ratio verbatim, the truthy optional keys |
| ModelConfig.BuildForConfig | src/veotools/core.py:380-442 | the same as `BuildGenerationConfig` (its errors, the SDK construction on `CollectedFrom` parameters, success when the SDK accepts, `ConfigFrom` for every key), for already looked-up capabilities |
| ModelConfig.ConstructKeepsConfig | src/veotools/core.py:437-442 | whether or not the TypeError retry drops the safety settings and cached content, the accepted config keeps every per-key promise of the collected parameters |
| ModelConfig.ProgressTracker.Update | src/veotools/core.py:255-263 | stores the percentage as given and reports it once to the callback |
| ModelConfig.ProgressTracker.Start | src/veotools/core.py:265-271 | reports 0 and stores it |
| ModelConfig.ProgressTracker.Complete | src/veotools/core.py:273-279 | reports 100 and stores it |
| ModelConfig.ProgressTracker.constructor | src/veotools/core.py:235-244 | a new tracker starts at 0 with nothing reported |
| LegacyStitcher.FrameWriter.constructor | veo_stitch.py:247-249 | the writer takes the output path, rate and size and holds no frames |
| Router.ChooseBaseUrl | src/veotools/providers/daydreams.py:32 | the explicit URL, else the environment's, else the default, with every trailing `/` removed |
| Router.RouterClient.Url | src/veotools/providers/daydreams.py:46-51 | absolute URLs pass through; a relative path is the base URL followed by the path, a leading `/` added when missing; the length fixes the result exactly |
| Router.NewClient | src/veotools/providers/daydreams.py:20-33 | ValueError exactly for an empty API key; otherwise a client holding the key, the chosen base URL and the timeout |
| Router.JobPaths | src/veotools/providers/daydreams.py:61-65 | the slug path first when a candidate slug exists, and the generic `/videos/jobs` path last, always |
| Router.BodyFor | src/veotools/providers/daydreams.py:69-71 | the body keeps every other entry and carries `model` only on the generic path |
| Router.BodyCarriesPayload | src/veotools/providers/daydreams.py:57-71 | every payload entry reaches every request; the model name, or the payload's own `model`, is sent only on the generic path |
| Router.SubmitVideoJob | src/veotools/providers/daydreams.py:57-89 | the POSTs go to the paths in order with their bodies; every one before the last got a 404; a 404 stops early only on the last path; the result is the last answer checked for 4xx/5xx |
| Router.Unwrap | src/veotools/providers/daydreams.py:99 | the `job` member of an object when present, else the object; a non-object raises AttributeError |
| Router.UnwrapOpensEnvelope | src/veotools/providers/daydreams.py:99 | wrapping a job in a `job` envelope and unwrapping gives it back |
| Router.UnwrapKeepsBareJob | src/veotools/providers/daydreams.py:99 | a job without a `job` member is its own unwrapping, and unwrapping again changes nothing |
| Router.GetVideoJob | src/veotools/providers/daydreams.py:91-99 | GET of `/videos/jobs/<id>` under the client's URL rules, checked for 4xx/5xx, then unwrapped |
| Router.FetchJobStatus | src/veotools/providers/daydreams.py:101-109 | GET of the status URL, checked for 4xx/5xx, then unwrapped |
| Router.JobIsFetchedFromBase | src/veotools/providers/daydreams.py:91-99 | a job is always fetched from the base URL followed by `/videos/jobs/<id>` |
| Video.ModelKey | src/veotools/generate/video.py:39 | the model key of `_validate_person_generation`: empty for a falsy model, else every `models/` removed; `ModelKeyIgnoresPrefix` states that a leading prefix makes no difference |
| Video.ModelKeyIgnoresPrefix | src/veotools/generate/video.py:39 | a leading `models/` makes no difference to the model key |
| Video.VersionPrefixesExclusive | src/veotools/generate/video.py:40-52 | no key is both a Veo 3.0 and a Veo 2.0 key, so the branches cannot overlap |
| Video.AllowedPersonGeneration | src/veotools/generate/video.py:39-52 | `allow_all` exactly in text mode, `allow_adult` exactly outside text mode or for Veo 2.0, `dont_allow` exactly for Veo 2.0; unknown models follow the Veo 3 rule |
| Video.ValidatePersonGeneration | src/veotools/generate/video.py:16-56 | a falsy value always passes; otherwise it passes exactly when it is an allowed string, and the ValueError carries the message |
| Video.ValidationIgnoresModelsPrefix | src/veotools/generate/video.py:39-56 | validation gives the same answer, message included, with or without `models/` |
| Video.WithDefaultPersonGeneration | src/veotools/generate/video.py:59-74 | a truthy value is kept; otherwise the value is set exactly for `veo-3.` keys, to the mode's default; no other key changes |
| Video.Veo3IsNotVeo2 | src/veotools/generate/video.py:40-49 | a `veo-3.` key is never a Veo 2.0 key |
| Video.DefaultPassesValidation | src/veotools/generate/video.py:137-138 | when the caller gave no value, filling in the default and then validating never raises |
| Video.ConfigParams.ApplyDefaultPersonGeneration | src/veotools/generate/video.py:59-74 | the entries become `WithDefaultPersonGeneration` of the old entries |
| Video.DefaultThenValidate | src/veotools/generate/video.py:137-138 | the default is applied in place, validation judges the result, and without a caller value it never raises |
| Video.RouterModel | src/veotools/generate/video.py:213-218 | the router model: the router id of the normalised model, else of the raw model, else the model itself; `RouterModelNeverEmpty` states it is never empty and is the router id whenever one exists |
| Video.RouterModelNeverEmpty | src/veotools/generate/video.py:213-225 | the router model is never empty, so the "not supported" ValueError cannot be raised, and it is the router id whenever one exists |
| Video.DefaultIsFixed | src/veotools/core.py:284 | the default model normalises to itself and has a router id |
| Video.DigitsRoundTrip | src/veotools/generate/video.py:230 | reading back the decimal digits of a natural number gives the number |
| Video.ParseInt | src/veotools/generate/video.py:230 | `int()` of a string: surrounding whitespace, an optional sign and ASCII decimal digits, else the invalid-literal ValueError; stated by `ParseDigits`, `ParseNegativeDigits` and `ParseRendered` |
| Video.ParseDigits | src/veotools/generate/video.py:230 | `int()` reads an unsigned run of digits as its value |
| Video.ParseNegativeDigits | src/veotools/generate/video.py:230 | `int()` reads a minus sign and digits as the negated value |
| Video.ParseRendered | src/veotools/generate/video.py:230 | `int(str(n))` is n |
| Video.ParseRenderedNegative | src/veotools/generate/video.py:230 | `int("-" + str(n))` is -n |
| Video.ParseIntRendered | src/veotools/generate/video.py:230 | parsing the decimal rendering of any integer, negative or not, gives it back |
| Video.IntOf | src/veotools/generate/video.py:230 | `int()` of a keyword value: None raises TypeError, a bool is 0 or 1, an int is itself, a float is truncated toward zero, a string is parsed; `IntOfRendered` and `FloatPollSeconds` state consequences |
| Video.IntOfRendered | src/veotools/generate/video.py:230 | `int()` of the string form of any integer gives it back |
| Video.PollSeconds | src/veotools/generate/video.py:230 | at least 2 seconds; 5 when no interval is given; the given interval when it is at least 2; an error exactly when `int()` fails |
| Video.FloatPollSeconds | src/veotools/generate/video.py:230 | a float interval is truncated before the floor of 2: 0.5 gives 2, 7.9 gives 7, -3.5 gives 2 |
| Video.BuildPayload | src/veotools/generate/video.py:238-259 | the prompt; the duration converted with `int()` (its error raised), else the model's default; the truthy options as given; `enable_audio`, else `audio`, as a boolean; no other key |
| Video.AddOptions | src/veotools/generate/video.py:246-259 | the option and audio steps add exactly the set options and keep what was there |
| Video.StatusProgress | src/veotools/generate/video.py:231 | 5 for queued, 55 for processing, the fallback otherwise |
| Video.LowerAll | src/veotools/generate/video.py:282 | every character lower-cased in place, length kept |
| Video.Capitalize | src/veotools/generate/video.py:282 | the first character upper-cased and every later one lower-cased, length kept |
| Video.PollReports | src/veotools/generate/video.py:285-293 | one progress report per polled job |
| Video.PollReportsRange | src/veotools/generate/video.py:285-293 | every report in the loop is 5, 55 or 60, and 60 exactly when its status is neither queued nor processing |
| Video.PollStep | src/veotools/generate/video.py:285-293 | one more successful poll while pending extends the status, the job in hand and the reports by that poll |
| Video.PollJob | src/veotools/generate/video.py:285-293 | the loop polls only while pending, reports once per poll, and ends settled with the last job, on a failed poll, or still pending when the polls run out |
| Video.FirstVideoAsset | src/veotools/generate/video.py:324-332 | the first asset whose MIME type mentions video or whose URL ends in `.mp4`, and none before it qualifies |
| Video.ChooseAssetUrl | src/veotools/generate/video.py:324-335 | the URL of the first video asset when it has one, else the "no downloadable asset" RuntimeError |
| Video.ResolveAssets | src/veotools/generate/video.py:305-323 | the job's own assets, else those fetched by status URL, else those fetched by id (or that fetch's error) when the status URL is absent or gave none; a failed fetch raises |
| Video.SettledJobUrl | src/veotools/generate/video.py:295-335 | a status other than `succeeded` raises with the job's error or the default message; otherwise the URL chosen from the resolved assets, or the resolving fetch's error |
| Video.PercentsWithinAppend | src/veotools/generate/video.py:282-337 | reports within bounds stay within bounds when concatenated |
| Video.GrowsFurther | src/veotools/generate/video.py:282-337 | a log that grew within bounds still did after more in-bound reports |
| Video.GrowsThrough | src/veotools/generate/video.py:282-337 | growth within bounds is transitive |
| Video.PollReportsWithin | src/veotools/generate/video.py:285-293 | the poll loop reports only percentages from 5 to 60 |
| Video.SubmitJob | src/veotools/generate/video.py:234-271 | reports `Submitting` at 0, and an accepted job always has an identifier |
| Video.AwaitAsset | src/veotools/generate/video.py:275-337 | the first report is the job's initial status (`queued` when absent), capitalised, at its table percentage with 5 for an unknown status; every reported percentage lies between 5 and 95; a download URL is non-empty |
| Video.RouterSlug | src/veotools/generate/video.py:219-222 | the router slug of the normalised model, else of the raw model; `ToDaydreamsSlug` states which ids have one and `ChooseRouter` returns it |
| Video.ChooseRouter | src/veotools/generate/video.py:213-236 | the router model (never empty), the router slug and the normalised model's configuration |
| Video.GenerateFromTextDaydreams | src/veotools/generate/video.py:200-337 | a download uses the router model and a non-empty URL, and all progress up to the download lies between 0 and 95 |
| Video.SubmitAndAwait | src/veotools/generate/video.py:230-337 | a download uses the given router and a non-empty URL, and all progress up to the download lies between 0 and 95 |
| SceneWriter.StrippedLine | src/veotools/plan/scene_writer.py:203-234 | a falsy input contributes no line, a truthy one exactly one |
| SceneWriter.BuildPromptSections | src/veotools/plan/scene_writer.py:189-246 | the inputs are the lines joined by newlines, or the placeholder line when there are none; the guidance is a newline and the joined lines, or empty; non-empty guidance starts with a newline |
| SceneWriter.CollectLines | src/veotools/plan/scene_writer.py:200-234 | the appending steps build exactly the input lines and the guidance lines the inputs call for |
| SceneWriter.InputLineCount | src/veotools/plan/scene_writer.py:203-230 | each truthy input adds exactly one input line, and the additional context adds none |
| SceneWriter.GuidanceLineCount | src/veotools/plan/scene_writer.py:215-234 | only the camera angle and the additional context produce guidance, one line each |
| SceneWriter.InputLinesInOrder | src/veotools/plan/scene_writer.py:203-230 | with every input given the lines are description, personality, video type, target style, camera perspective and references, each value stripped |
| SceneWriter.NoInputsGiveDefaults | src/veotools/plan/scene_writer.py:236-245 | without optional inputs both line lists are empty, so the sections are the placeholder and the empty string |
| SceneWriter.ContextIsGuidanceOnly | src/veotools/plan/scene_writer.py:231-234 | the additional context leaves the input lines unchanged and ends the guidance with its stripped line |
| SceneWriter.CheckResponse | src/veotools/plan/scene_writer.py:315-317 | a RuntimeError exactly when the response text is missing or empty; otherwise the text itself |
| Executor.DefaultOptions | src/veotools/plan/executor.py:106-118 | the keyword defaults: model `veo-3.0-generate-001`, stitching on, overlap 1.0, no auto-seeding, seed offset -0.5, no builder, provider or options |
| Executor.DefaultPromptBuilder | src/veotools/plan/executor.py:65-103 | the prompt opens with the clip's `Clip ID:` line and closes with the render instruction |
| Executor.PromptLineCount | src/veotools/plan/executor.py:66-102 | nine lines are always present and each optional field adds exactly one line when it is non-empty, the audio line when any cue is |
| Executor.AudioCueOrder | src/veotools/plan/executor.py:93-101 | with all three cues present they are joined by `; ` in the order lyrics, emotion, flow |
| Executor.UnattributedDialogue | src/veotools/plan/executor.py:90-92 | a line without a speaker is attributed to `Dialogue` |
| Executor.Builder | src/veotools/plan/executor.py:141 | the caller's prompt builder when given, else the default one |
| Executor.ClipModelAndKwargs | src/veotools/plan/executor.py:153-157 | the per-clip model and options; `ClipOptionsHandling` states the `model` override, its removal and the aspect-ratio default |
| Executor.ClipOptionsHandling | src/veotools/plan/executor.py:153-157 | a `model` option overrides the model and is removed; the aspect ratio defaults to the clip's; every other option passes unchanged |
| Executor.RunClips | src/veotools/plan/executor.py:149-202 | the run through the first k clips as a recursive specification; `RunStep`, `RunExtend`, `RunLength`, `RunPrefix` and `RunEntry` state its properties, and `RunPlanClips` computes it |
| Executor.RunStep | src/veotools/plan/executor.py:149-202 | a run through clip k+1 extends the run through k by clip k's prompt and result and the frame carried on |
| Executor.RunExtend | src/veotools/plan/executor.py:149-202 | from the state after k clips, clip k either raises and ends the run with that error or extends the state |
| Executor.RunLength | src/veotools/plan/executor.py:149-193 | after k clips there is exactly one prompt and one result per clip |
| Executor.RunPrefix | src/veotools/plan/executor.py:149-193 | a run that got through k clips got through every earlier count and its record extends theirs |
| Executor.RunEntry | src/veotools/plan/executor.py:149-193 | entry i is clip i's prompt and the answer to clip i's generation call, made with the frame carried into it |
| Executor.ErrorStopsRun | src/veotools/plan/executor.py:178-191 | a generation that raises ends the run: no later clip is attempted and the error is kept |
| Executor.ImageFor | src/veotools/plan/executor.py:167-175 | the provider's image when it gives one, else the carried frame when auto-seeding, else none; `NoAutoSeedNoSeed`, `FirstClipFromText` and `SeededFromPrevious` state the consequences |
| Executor.NoAutoSeedNoSeed | src/veotools/plan/executor.py:174-175 | without auto-seeding no frame is ever carried, so only the image provider chooses image generation |
| Executor.FirstClipFromText | src/veotools/plan/executor.py:147-175 | without a provider the first clip is always generated from text |
| Executor.SeededFromPrevious | src/veotools/plan/executor.py:174-200 | with auto-seeding and no provider, the frame extracted from clip i is the image of clip i+1 |
| Executor.NextSeed | src/veotools/plan/executor.py:195-202 | the frame carried to the next clip; `SeedStep` states when it is kept, replaced or cleared |
| Executor.SeedStep | src/veotools/plan/executor.py:195-202 | a clip without a path, or the last clip, keeps the carried frame; a failed extraction clears it |
| Executor.ClipPaths | src/veotools/plan/executor.py:204-206 | every listed path is the path of some result, and there are no more paths than results |
| Executor.ClipPathsAppend | src/veotools/plan/executor.py:204-206 | the paths of a longer list are the old paths plus the new result's path when it has one |
| Executor.RunPlanClips | src/veotools/plan/executor.py:149-202 | the loop computes the run through every clip, with one prompt and one result per clip |
| Executor.ExecuteScenePlan | src/veotools/plan/executor.py:140-226 | a generation error is the call's error; the stitcher is called on the clip paths exactly when stitching is on and two or more paths exist, and its error is the call's error |
| Executor.ToDict | src/veotools/plan/executor.py:38-50 | one record per prompt and result pair, up to the shorter list, and the final result as given |
| Extractor.Duration | veo_tools/process/extractor.py:22-24 | zero at a non-positive frame rate; never negative for a non-negative frame count |
| Extractor.DurationSpansFrames | veo_tools/process/extractor.py:24 | at a positive frame rate the duration times the rate is the frame count |
| Extractor.TargetTime | veo_tools/process/extractor.py:26-29 | the clamped target time of an offset; `TargetTimeInside` states its range and each clamping case |
| Extractor.TargetTimeInside | veo_tools/process/extractor.py:26-29 | the target time lies in [0, duration]: a negative offset counts back from the end and stops at 0, a non-negative one counts from the start and stops at the end |
| Extractor.Trunc | veo_tools/process/extractor.py:31 | `int()` truncates toward zero |
| Extractor.TargetFrame | veo_tools/process/extractor.py:31 | `int(target_time * fps)`; `TargetFrameInside` states that it lies between 0 and the frame count |
| Extractor.TargetFrameInside | veo_tools/process/extractor.py:22-31 | at a positive frame rate the frame positioned on lies between 0 and the frame count |
| Extractor.GetVideoInfo | veo_tools/process/extractor.py:95-114 | FileNotFoundError exactly for a file that is not on disk; otherwise the capture's rate, frame count, width and height with the derived duration |
| Extractor.ExtractFrame | veo_tools/process/extractor.py:10-48 | FileNotFoundError for a missing file, else RuntimeError naming the target time when the frame cannot be read, else the caller's path or the default one for that time |
| Extractor.ReadFlags | veo_tools/process/extractor.py:68-79 | one flag per offset: whether the frame it lands on can be read |
| Extractor.Kept | veo_tools/process/extractor.py:68-87 | at most k positions, each below k and readable |
| Extractor.KeptInOrder | veo_tools/process/extractor.py:68-87 | the kept positions are strictly increasing |
| Extractor.KeptComplete | veo_tools/process/extractor.py:79-87 | every readable position is kept |
| Extractor.AllSetAllKept | veo_tools/process/extractor.py:79-87 | when every frame can be read every offset gives a path |
| Extractor.ExtractFrames | veo_tools/process/extractor.py:51-92 | FileNotFoundError exactly for a missing file; otherwise one path per readable offset, in the order of the offsets, named for that offset and its target time |
| Stitch.FirstSet | src/veotools/stitch/seamless.py:109-118 | the position of the first set flag, with none before it, or none at all |
| Stitch.MissingFlags | src/veotools/stitch/seamless.py:109-111 | one flag per input, set exactly for a file that is not on disk |
| Stitch.Durations | src/veotools/stitch/seamless.py:114-116 | one duration per input, the one `get_video_info` reports |
| Stitch.UnmeasuredFlags | src/veotools/stitch/seamless.py:116-118 | one flag per input, set exactly for a duration that is not positive |
| Stitch.Validate | src/veotools/stitch/seamless.py:99-118 | the input checks of `stitch_videos` in order; `ValidateOk`, `TooFewFirst` and `MissingBeforeUnmeasured` state when they pass and which error wins, and `CheckInputs` computes them |
| Stitch.ValidateOk | src/veotools/stitch/seamless.py:99-118 | the checks pass exactly for two or more files that all exist and have a positive duration, and then give the durations |
| Stitch.MissingBeforeUnmeasured | src/veotools/stitch/seamless.py:109-118 | a missing file is reported as FileNotFoundError before any duration problem, whatever its position |
| Stitch.TooFewFirst | src/veotools/stitch/seamless.py:99-100 | fewer than two inputs raise ValueError before anything else is looked at |
| Stitch.CheckInputs | src/veotools/stitch/seamless.py:99-119 | the count check and the two passes over the inputs decide as `Validate` does |
| Stitch.TrimEnd | src/veotools/stitch/seamless.py:137-139 | the end a clip is trimmed to; `TrimBounds` states it is positive, never past the clip's end, and untrimmed for the last clip or a zero overlap |
| Stitch.TrimBounds | src/veotools/stitch/seamless.py:137-142 | a trim end is positive and at most the duration; it is shorter exactly when the overlap is positive, the clip is not last and more than 0.01 s remains; the last clip and a non-positive overlap are never trimmed |
| Stitch.Render | src/veotools/stitch/seamless.py:141-180 | the text of each filter; `RenderedLabels` states its stream labels |
| Stitch.RenderedLabels | src/veotools/stitch/seamless.py:143-180 | every video filter ends with its `[v<i>]` label, every audio filter with its `[a<i>]` label, and the concat filter starts with its inputs |
| Stitch.ClipFilters | src/veotools/stitch/seamless.py:143-169 | one filter per clip, two when audio is included |
| Stitch.ClipFiltersTrim | src/veotools/stitch/seamless.py:144-169 | a trim or atrim is emitted exactly when the clip is cut short; a clip without audio gets silence trimmed to the same end |
| Stitch.FiltersUpTo | src/veotools/stitch/seamless.py:137-169 | the first k clips contribute k filters, or 2k with audio |
| Stitch.FiltersAt | src/veotools/stitch/seamless.py:137-169 | clip i's filters sit at position i, or 2i with audio, in input order |
| Stitch.VideoRefs | src/veotools/stitch/seamless.py:152 | one video label per clip |
| Stitch.AudioRefs | src/veotools/stitch/seamless.py:169 | one audio label per clip |
| Stitch.RefsInOrder | src/veotools/stitch/seamless.py:143-169 | label i is `[v<i>]` and `[a<i>]` |
| Stitch.Paired | src/veotools/stitch/seamless.py:172 | each concat input is a video label followed by the audio label of the same clip |
| Stitch.FilterGraph | src/veotools/stitch/seamless.py:135-180 | the per-clip filters followed by the concat filter; `FilterGraphShape` states its shape and `PlanFilters` computes it |
| Stitch.FilterGraphShape | src/veotools/stitch/seamless.py:171-180 | the concat filter is last, joins as many inputs as there are clips, and carries audio exactly when some clip has audio |
| Stitch.PlanFilters | src/veotools/stitch/seamless.py:133-180 | the loop builds the filter graph, one video label per clip, and audio labels exactly when audio is included |
| Stitch.InputArgs | src/veotools/stitch/seamless.py:185-186 | two arguments per input |
| Stitch.InputArgsAt | src/veotools/stitch/seamless.py:185-186 | input i appears as `-i` followed by its path, in input order |
| Stitch.Command | src/veotools/stitch/seamless.py:184-205 | the ffmpeg argument list; `CommandShape` states its shape and `BuildCommand` computes it |
| Stitch.CommandShape | src/veotools/stitch/seamless.py:184-205 | the command starts with `ffmpeg`, lists every input in order, puts the filter graph right after them and the output last; audio adds six arguments |
| Stitch.BuildCommand | src/veotools/stitch/seamless.py:184-205 | the argument list assembled step by step is the command |
| Stitch.Paths | src/veotools/stitch/seamless.py:185-186 | one path per input, in order |
| Stitch.AudioPresence | src/veotools/stitch/seamless.py:123-126 | one audio flag per input, as the probe answers |
| Stitch.StitchVideos | src/veotools/stitch/seamless.py:99-213 | a failed check is the call's error and nothing runs; otherwise the planned command is run once and an ffmpeg failure becomes a RuntimeError |
| Stitch.Interleave | src/veotools/stitch/seamless.py:283-290 | ValueError exactly when there is not one transition fewer than videos; otherwise 2n-1 entries with videos at even and transitions at odd positions |
| Stitch.StitchWithTransitions | src/veotools/stitch/seamless.py:283-297 | the count error, else the interleaved list stitched with zero overlap |
| Stitch.NoOverlapNoTrim | src/veotools/stitch/seamless.py:292-297 | with zero overlap no trim or atrim filter is emitted |
| Stitch.TransitionOffsets | src/veotools/stitch/seamless.py:353-360 | -1.0 and 1.0 without points; otherwise the given `a_end` and `b_start`, each defaulting to the same values |
| Stitch.CreateTransitionPoints | src/veotools/stitch/seamless.py:351-362 | the frame of `a` at the first offset, then the frame of `b` at the second, each named from its own video; the first extraction error wins |
| Stitch.DefaultTransitionTimes | src/veotools/stitch/seamless.py:353-360 | by default the first frame is one second before `a`'s end (or at its start) and the second one second into `b` (or at its end) |
| VersionCheck.SkipSpaces | scripts/check_version.py:29 | `\s*` stops at the first non-space after the start, and skips only spaces |
| VersionCheck.QuoteAt | scripts/check_version.py:29 | `[^"]+` stops at the first quote, and skips no quote |
| VersionCheck.MatchAt | scripts/check_version.py:29 | a group found is non-empty and holds no quote |
| VersionCheck.Search | scripts/check_version.py:29 | a group found by the search is non-empty and holds no quote |
| VersionCheck.AssignmentMatches | scripts/check_version.py:29 | a line starting with the name, spaces, `=`, spaces and a quoted text yields that text |
| VersionCheck.AssignmentIsFound | scripts/check_version.py:29 | `name <ws>=<ws>"value"` is read back as value, whatever surrounds `=` and follows the closing quote |
| VersionCheck.InProjectBefore | scripts/check_version.py:21-27 | whether the line sits in the `[project]` table, from the last header before it; `HeaderSetsSection` and `NoSectionBeforeHeaders` state it |
| VersionCheck.Candidate | scripts/check_version.py:23-31 | the version a line yields: a non-header line in `[project]` that starts with `version` and matches the assignment; `AssignmentIsFound` states it |
| VersionCheck.Candidates | scripts/check_version.py:23-31 | one candidate per line |
| VersionCheck.FirstSomeIsFirst | scripts/check_version.py:23-32 | the value found comes from the first line that has one; none found means no line has one |
| VersionCheck.PyprojectVersion | scripts/check_version.py:19-32 | the first candidate's version, else the RuntimeError; `PyprojectVersionIsFirst` states it and `ReadPyprojectVersion` computes it |
| VersionCheck.PyprojectVersionIsFirst | scripts/check_version.py:19-32 | the version is the first candidate line's value; without one the reader raises RuntimeError |
| VersionCheck.HeaderSetsSection | scripts/check_version.py:25-27 | every header decides the section, `[project]` or not, up to the next header |
| VersionCheck.NoSectionBeforeHeaders | scripts/check_version.py:22 | lines before the first header are in no section and are never read |
| VersionCheck.LineStep | scripts/check_version.py:24-31 | a header sets the flag and yields nothing; other lines keep the flag and yield a match only inside `[project]` on a `version` line |
| VersionCheck.ReadPyprojectVersion | scripts/check_version.py:19-32 | the loop with the `in_project` flag returns the first candidate or raises |
| VersionCheck.InitVersion | scripts/check_version.py:35-40 | RuntimeError exactly when no `__version__` assignment is found; a version found is non-empty and holds no quote |
| VersionCheck.TagVersion | scripts/check_version.py:44-45 | the tag with its leading `v`s removed: a suffix of the tag, preceded only by `v`s, not itself starting with `v` |
| VersionCheck.CheckRelease | scripts/check_version.py:43-64 | the missing-tag warning exactly when the stripped tag is empty, whether or not the files can then be read; an unreadable version is the script's error; otherwise the errors are the mismatches, the exit status is 1 exactly when there are some, and success prints the version |
| VersionCheck.Mismatches | scripts/check_version.py:50-54 | the error lines `main` collects; `ExitIffMismatch` and `EmptyTagSkipsOnlyTag` state when there are some |
| VersionCheck.ExitIffMismatch | scripts/check_version.py:53-62 | the script fails exactly when a set tag differs from pyproject or `__version__` differs from pyproject; at most two errors |
| VersionCheck.EmptyTagSkipsOnlyTag | scripts/check_version.py:46-54 | without a tag only the `__version__` comparison is made |
| VersionCheck.MatchingTagPasses | scripts/check_version.py:44-57 | a tag `v<version>` with any number of `v`s that agrees with both files passes |
| LegacyStitcher.ModelPath | veo_stitch.py:27 | the stored model name; `ModelPathPrefixed` states that it always starts with `models/` |
| LegacyStitcher.ModelPathPrefixed | veo_stitch.py:27 | the stored model always starts with `models/`; it is the input exactly when the input already did; otherwise removing the prefix gives the input back; prefixing twice changes nothing |
| LegacyStitcher.NewStitcher | veo_stitch.py:20-31 | ValueError exactly when the key is unset or empty; otherwise the model with the `models/` prefix added only when missing |
| LegacyStitcher.ConfigFor | veo_stitch.py:42-53 | always one video; the duration and `enhance_prompt=True` are set exactly when the model does not mention `veo-3.0` |
| LegacyStitcher.DefaultModelIsLimited | veo_stitch.py:42-46 | the default model gets only `number_of_videos=1` |
| LegacyStitcher.Outcome | veo_stitch.py:84-90 | the first video when there is one, else RuntimeError with the failure message, extended by the operation's error when it has one |
| LegacyStitcher.FirstDone | veo_stitch.py:75-79 | the first finished operation, with none before it, or none when no operation finishes |
| LegacyStitcher.WaitForVideo | veo_stitch.py:71-90 | polls until the first finished operation and reports its outcome; no outcome when none finishes |
| LegacyStitcher.LaterPrompt | veo_stitch.py:200 | the continuation prompt when non-empty, else the initial prompt |
| LegacyStitcher.NextSegment | veo_stitch.py:189-220 | one later segment: seeded from the previous video's frame, or text only when that video is unusable or any step raises; `NextSegmentRequest` states it |
| LegacyStitcher.NextSegmentRequest | veo_stitch.py:189-220 | each later segment is one generation with the later prompt and duration, seeded only from a usable previous video's extracted frame |
| LegacyStitcher.Segments | veo_stitch.py:182-220 | a finished sequence of k segments has exactly k videos |
| LegacyStitcher.SegmentsStep | veo_stitch.py:188-220 | k segments extend k-1 segments by the segment generated from the last one |
| LegacyStitcher.SegmentsChain | veo_stitch.py:183-220 | segment 1 is the first generation and every later one comes from the one before it |
| LegacyStitcher.ErrorStopsSegments | veo_stitch.py:183-220 | an exception ends the sequence: later segments change nothing |
| LegacyStitcher.SegmentsExtend | veo_stitch.py:188-220 | one more iteration either appends the next segment or ends the sequence with its error |
| LegacyStitcher.SequenceSegments | veo_stitch.py:182-220 | segment 1 uses the initial prompt and no image; segment j+1 uses the later prompt, seeded only from segment j when usable; an error in segment 1 ends the sequence |
| LegacyStitcher.Usable | veo_stitch.py:223 | only usable videos from the list, no more than there are |
| LegacyStitcher.UsableComplete | veo_stitch.py:223 | every usable video is kept |
| LegacyStitcher.SegmentCount | veo_stitch.py:183-188 | `max(1, num_segments)` segments are made |
| LegacyStitcher.GenerateSegment | veo_stitch.py:189-220 | one iteration of the loop, with its fallback to text only |
| LegacyStitcher.GenerateSegments | veo_stitch.py:178-220 | the loop produces exactly the segment sequence, or its first error |
| LegacyStitcher.GenerateSequence | veo_stitch.py:174-232 | the sequence of `max(1, n)` segments or its first error; the usable videos are stitched exactly when more than one exists |
| LegacyStitcher.SeedTime | veo_stitch.py:157 | `max(0, duration - time_from_end)` |
| LegacyStitcher.ExtractFrameAtTime | veo_stitch.py:145-172 | a zero frame rate divides by zero; a seek outside the frames read raises RuntimeError naming the video; otherwise the frame at `int(target * fps)`, stored under the name for the target time |
| LegacyStitcher.SeedFrameReadable | veo_stitch.py:152-166 | in exact arithmetic, a positive distance from the end always lands on a readable frame |
| LegacyStitcher.ZeroDistanceMissesEnd | veo_stitch.py:152-166 | in exact arithmetic, a zero distance seeks just past the last frame, so the read fails |
| LegacyStitcher.FrameBudget | veo_stitch.py:259-264 | the last segment may use all its frames; the others at least one and at most all, `total - int(fps)` when that is at least one |
| LegacyStitcher.Copied | veo_stitch.py:266-273 | the copied frames are a prefix of the readable ones, no more than the budget, the whole budget when enough frames exist |
| LegacyStitcher.NonLastTrimsOneSecond | veo_stitch.py:259-273 | a fully readable segment other than the last loses exactly its final `int(fps)` frames |
| LegacyStitcher.FrameWriter.Write | veo_stitch.py:271 | the writer's frames grow by that frame |
| LegacyStitcher.CopySegment | veo_stitch.py:266-273 | the loop writes the copied frames and counts them |
| LegacyStitcher.StitchVideos | veo_stitch.py:234-279 | the writer takes the first video's rate and size and receives each segment's budgeted frames in order |

## Left out

- Network calls are not modelled. This covers HTTP to the Daydreams Router, the google-genai client (`generate_videos`, `operations.get`, `generate_content`, the Files API) and `requests` downloads. They become oracle parameters that return a job, a response or an error, except the Daydreams asset download, which is left out with the rest of that path's tail (below).
- ffmpeg, ffprobe and OpenCV are not executed. A capture is the frame rate and frame count it reports and the frames it can read. Audio detection and the ffmpeg run are parameters.
- Float formatting (`:.6f` in filter graphs, `:.1f` in frame names and messages, `:03d` in frame names) is a rendering parameter.
- Clocks and sleeping are not modelled: `time.sleep`, elapsed-time messages and the elapsed-time progress formula of the Google path. The poll loops run over a finite sequence of answers, with an explicit still-pending outcome where the source would keep polling.
- Logging and console output are not modelled, and neither are the console lines of `veo_stitch.py` or the `on_progress` message prefixes the executor adds ("Clip i/n: …", "Stitching: …").
- The `VeoClient` singleton, `StorageManager` paths, directory creation, `cv2.imwrite` and file writes become name parameters or are dropped.
- The executor's `_load_plan_like` (JSON loading and Pydantic validation) is not modelled. `execute_scene_plan` takes an already loaded list of clips.
- `SceneWriter.generate` keeps only its empty-response check. The Gemini call, `BASE_GUIDANCE.format`, `model_validate_json` and `save_path` writing are not modelled. The JSON rendering of character references is a parameter.
- Pydantic schema classes become plain datatypes holding the fields the executor reads. JSON-schema validation is not modelled.
- `VeoStitcher.save_video` (URI parsing, download and fallback `.txt` file) is folded into the per-segment generation oracle. The `frames` list of `generate_sequence` is never returned, so it is not kept.
- `main()` of `veo_stitch.py` is an interactive command-line front end and is not modelled.
- The result metadata after stitching (`VideoResult.metadata`, `update_progress`, `mark_failed`) and the stitched output's `get_video_info` are not modelled. `VideoResult` is a record with an optional path.
- Python's `str.capitalize()` and `str.lower()` are modelled on ASCII letters only.
- A router job whose `status` member is JSON `null` is not modelled. In the source, `job.get("status", …)` then returns None and `status.capitalize()` raises AttributeError. The model's job status is either a string or absent, and an absent status becomes `queued` (on submission) or the previous status (while polling).
- The progress reports of `stitch_videos` are not modelled: `Preparing` at 0, `Encoding` at 90 and `Complete` at 100. `Stitch.StitchVideos` returns the command and the outcome of the ffmpeg run without a `ProgressTracker`.
- `str()` of a float keyword value is not rendered: the model writes a fixed placeholder, as it does for lists. It only shows up in the aspect-ratio error message.
- Video.IntOf: a string is accepted when, after stripping whitespace, it is an optional sign and ASCII decimal digits. Python's `int()` also accepts underscores between digits and non-ASCII decimal digits; the model treats those strings as ValueErrors.
- Stitch.Durations: `src/veotools/process/extractor.py`, which `seamless.py` imports for `get_video_info` and `extract_frame`, is not part of this model. Its duration and frame extraction are taken to behave like those of `veo_tools/process/extractor.py`: frame count over fps, 0 when fps is 0.
- `splitlines()` is not modelled. The version checker takes pyproject.toml already split into lines.
- The tail of `_generate_from_text_daydreams` after the `Downloading` report at 95 is not modelled: `download_asset` and its HTTP errors (which go through `mark_failed`), the metadata read with `get_video_info` and its fallback, and the completion report at 100. The model stops at the `Downloading` outcome, which carries the chosen URL.
- The generation entry points other than the Daydreams text path are not modelled (`generate_from_text` on Google, `generate_from_image`, `generate_from_video`). Their shared person-generation defaulting and validation are modelled.
- Video.SubmitJob: states only the `Submitting` report and the job identifier, not the payload passed to the router. `BuildPayload` states the payload.
- Video.AwaitAsset: states the first report, the progress bounds and that a download URL is non-empty, not which URL is chosen. `PollJob` and `SettledJobUrl` state those.
- Video.GenerateFromTextDaydreams: states only the router model, a non-empty download URL and the progress bounds. Its steps are stated by `ChooseRouter`, `BuildPayload`, `PollJob` and `SettledJobUrl`.
- Video.SubmitAndAwait: states only the router, a non-empty URL and the progress bounds, for the same reason.
- LegacyStitcher.WaitForVideo: an operation is the `done` flag, the generated videos and the error that successive `operations.get` calls report. Whether `operation.error` exists is modelled as the error being present.
- LegacyStitcher.ExtractFrameAtTime: a seek outside the frames the capture can read is a failed read. OpenCV's own clamping of out-of-range positions is not modelled.
