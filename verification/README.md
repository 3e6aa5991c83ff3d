# rhubarb-crumble generator — a Dafny model

rhubarb-crumble turns a speech recording and its transcript into a lip-synced
animation. The mouth-shape analyser rhubarb returns timed mouth cues
`{start, end, value}`. The generator turns each cue into a still image of that
mouth shape, shown for the cue's length. It writes the images as an ffconcat
script, and ffmpeg muxes that script with the speech audio. rhubarb's mouth cues
are cached in a JSON file named by the md5 of the speech argument. A second run
for the same speech skips the analysis.

The model covers `generator.js`:

- `jsvalues.dfy` (`JsValues`): an optional value and JavaScript truthiness for option flags.
- `logging.dfy` (`Logging`): the `log` routing and the module-wide custom logger that `init` installs.
- `lines.dfy` (`Lines`): `join("\n")` and a line splitter that reads the text back.
- `timeline.dfy` (`Timeline`): cues become segments, then ffconcat lines, then one text.
  This is `parseMouthCues` with its `getImg` helper, plus a decoder that reads the lines back.
- `cachekeys.dfy` (`CacheKeys`): the cue-file and script paths, both derived from `md5(speech)`.
- `generator.dfy` (`Generator`): one call of `init`. It covers the "already scanned?" branch,
  the `mouthCues` check, `makeVideo`, and the write-error guard of `generateVideo`.

Several things outside the generator are parameters of the model. md5 is a
function-typed parameter (`Hash`). The rendering of a JavaScript number as
text is another (`NumberFormat`). The file system is a map from path to
content. rhubarb's answer and the outcome of each file write are inputs
(`Answers`). The effects of a run are a list of events in the order the code
issues them: log calls, the rhubarb spawn, file writes, the start of encoding,
and a thrown exception. Log calls carry a `Message` value. `MessageText` gives
each message's exact wording.

Behaviour of the code worth noting:

- The cache key is the md5 of the speech path string, not of the audio's content.
- `parseMouthCues` does not reject a cue whose `end` is not after its `start`. The duration
  `end - start` is emitted whatever its sign.
- A failed cache write is neither reported nor fatal. The write has no callback.
- A run without `mouthCues` logs an error and stops. There is no failure value.
- A cache file that is not valid JSON makes `require` throw (event `Threw`).
- `fs.writeFile` creates or truncates the file before writing. A cache write that fails after
  that point leaves an incomplete cue file behind. No run ever rewrites an existing cue file, so every
  later run for that speech throws, whatever runs come in between. Only removing the file by hand ends this.

## Model

| member | source | states |
|---|---|---|
| Logging.Log | generator.js:13-23 | a custom logger, when installed, is the only sink and gets (msg, data); otherwise exactly level "error" goes to console.error and every other level to console.log |
| Logging.CustomLoggerIgnoresLevel | generator.js:20-22 | with a custom logger the level has no influence on the call |
| Logging.ConsoleRouting | generator.js:14-19 | without a custom logger, "error" reaches console.error and any other level console.log |
| Logging.InstallLogger | generator.js:28-30 | a supplied logger replaces the current one; an absent one keeps it |
| Logging.LoggerIsSticky | generator.js:11-30 | over repeated init calls the most recently supplied logger is in force; once installed a logger is never removed |
| Lines.Split | generator.js:83 | reading the joined text back: at least one line, and no line contains a break |
| Lines.SplitAt | generator.js:83 | a single line followed by a break and more text reads back as that line, then the lines of the rest |
| Lines.FirstLineOfJoin | generator.js:83 | the first line read back from a join is the first element, when that element holds no break |
| Lines.SplitJoin | generator.js:83 | splitting the "\n"-join of single lines returns exactly those lines |
| Lines.JoinSplit | generator.js:83 | joining the split lines gives the text back: the line reader loses no character |
| Timeline.ImgRoundTrip | generator.js:72-74 | the shape can be read back from `img/<imgset>/<shape>.jpg`; the path depends only on imgset and shape |
| Timeline.GetImgInjective | generator.js:72-74 | two shapes of one image set share an image path exactly when they are equal |
| Timeline.CompileShape | generator.js:76-80 | one segment per cue, in cue order, segment i showing cue i's image for end - start seconds |
| Timeline.ParseMouthCues | generator.js:69-84 | the forEach/push loop yields 1 + 2n commands: the header, then `file <img>` and `duration <end-start>` per cue in order; the returned text is the functional `Script` of the cues, their "\n"-join |
| Timeline.SerializeShape | generator.js:70-80 | the command list of n cues has 1 + 2n lines: the header first, then for cue i `file ` + getImg(value) at 2i+1 and `duration ` + (end - start) at 2i+2 |
| Timeline.DecodeSerialize | generator.js:76-80 | decoding the script lines returns each segment's image and rendered duration, in order |
| Timeline.ScriptLines | generator.js:69-84 | when no imgset, shape or rendered duration holds a line break, splitting the script text at line breaks gives back exactly the command lines (so, with SerializeShape, 1 + 2n lines in cue order) |
| Timeline.EmptyScript | generator.js:70-83 | no cues: the script text is exactly the header line |
| Timeline.ScriptStartsWithHeader | generator.js:70-83 | whatever the cues, the script's first line read back is exactly `ffconcat version 1.0` (the text starts with it) |
| Timeline.TimelineKeepsCueTime | generator.js:76-79 | the segments' durations sum to the sum of the cue lengths, negative lengths included |
| Timeline.GaplessSpan | generator.js:76-79 | for cues that follow one another without gaps the timeline lasts from the first start to the last end |
| CacheKeys.CachePaths | generator.js:32-34 | the cue file and the script share the stem `<dirname>/data/<md5(speech)>` and differ only in `.json` vs `.ffconcat` |
| CacheKeys.SharedCacheIffSameKey | generator.js:32-34 | two speech arguments share cue file (and script) exactly when their md5 values agree |
| CacheKeys.ScriptNeverClobbersCache | generator.js:33-34 | no script path equals any cue-file path |
| Generator.AnalyzerArgs | generator.js:93-107 | rhubarb gets six arguments in order: speech, `--dialogFile ` + transcript, `--exportFormat json`, `--quiet`, `--extendedShapes` and the extended-shapes value, which is empty exactly when skipExtended is truthy and "GHX" otherwise |
| Generator.Write | generator.js:63-66 | a successful write stores the content at the path; a failure before the open changes nothing; a failure after it leaves unreadable text at the path; no other path is affected |
| Generator.GenerateVideo | generator.js:38-60 | with an error on a file that did not exist it only logs an error; in every other case it starts encoding speech plus script into `out` |
| Generator.ChooseSource | generator.js:91-139 | an existing cue file is always used (its cues unchanged) and rhubarb's answer ignored; an existing file that is not a cue list is unreadable; on a miss the cache is never used, and cues come from `mouthCues` exactly when present (otherwise there are none) |
| Generator.Init | generator.js:26-139 | the custom logger is installed first, and every log call of the run goes to the logger then in force (to the console when there is none); rhubarb is spawned, with the derived arguments, exactly when the cue file is missing |
| Generator.CacheHitSkipsAnalysis | generator.js:134-138 | on a hit no rhubarb spawn, the script of the cached cues is written, and rhubarb's answer has no effect |
| Generator.MissWithCues | generator.js:121-128 | on a miss with mouthCues those cues are saved and scripted; after a successful save the cue file holds them, and after a save cut past the open it holds the incomplete text |
| Generator.MissWithoutCues | generator.js:129-131 | on a miss without mouthCues nothing is written, no encoding starts, and the files are unchanged |
| Generator.MakeVideoEncodes | generator.js:86-88 | making the video starts the encoder exactly when the script write succeeded, and only on speech plus this script |
| Generator.EncodeIffScriptWritten | generator.js:38-88 | encoding starts, on speech and script into `out`, exactly when cues were obtained and the script write succeeded |
| Generator.EncodesOnlyThisScript | generator.js:45-60 | every encoding a run starts takes the speech audio and this speech's script and writes to `out` |
| Generator.RerunHitsCache | generator.js:91-139 | after a miss whose save succeeded, a second run with the same speech (any other options, any rhubarb answer) spawns nothing and scripts the saved cues |
| Generator.CutCacheWritePoisons | generator.js:121-139 | after a miss whose cache write failed past the open, the next run for the same speech throws at once, spawns no rhubarb and leaves the files as they were |
| Generator.UnreadableCueFileThrows | generator.js:91-139 | an existing cue file that is not valid JSON makes the run throw before any log, and the run changes no file |
| Generator.ExistingCueFileStable | generator.js:91-139 | a run for any speech leaves every existing cue file unchanged: cue files are written only on a miss, and script paths never equal cue-file paths |
| Generator.CueFileSurvivesRuns | generator.js:91-139 | over any series of complete runs, for any speeches, an existing cue file keeps its content |
| Generator.CutCacheStaysPoisoned | generator.js:121-139 | an unreadable cue file is never repaired: after any series of runs, for any speeches, the next run for that speech throws at once and changes no file |
| Generator.OptionsOutsideCacheKey | generator.js:32-34 | on a hit, changing the transcript or skipExtended changes nothing: stale cues are reused |

## Left out

- The ffmpeg encoding (generator.js:8-9, 44-60) is one `StartedEncoding` event. Codec, size and frame-rate options are not modelled, and neither are its progress logs.
- Spawning rhubarb (generator.js:98-118) is one `SpawnedAnalyzer` event. Its environment variable and its stderr error logs are not modelled.
- rhubarb's stdout is one complete JSON document. A document split over several `data` chunks, and a `JSON.parse` that throws, are not modelled.
- `fs.existsSync` is membership in the map. Anything at the cue path counts as existing.
- A cue file that is valid JSON but not a cue list is not modelled. Examples are `{}`, where the skip message
  is logged before `forEach` throws, and `[{}]`, which scripts `undefined.jpg` shapes with `NaN` durations.
  The model's cache contents are a cue list or text that is not JSON at all.
- Generator.Write: a write that fails after the open leaves one abstract incomplete text. Which prefix of the
  content remains is not modelled. For the cue file no strict prefix of a JSON array is valid JSON, so it is
  always unreadable.
- `require` of the cue file returns the stored cue list. Node's module cache is not modelled.
- The cache write at generator.js:126 passes no callback. Node 10 and later throw on that. The model follows older Node, where the write goes ahead and a failure is dropped.
- md5 is a parameter; its algorithm is not modelled.
- `end - start` is exact real subtraction, not IEEE-754 double subtraction.
- A number's text form is the `NumberFormat` parameter, not JavaScript's number-to-string rules.
- Timeline.ScriptLines: reading the text back as the command lines needs line-break-free image set, shape names and rendered durations. With a line break in any of them the count differs.
- The asynchronous order of the two writes and their callbacks is fixed to the order the code issues them.
- Each `init` call runs to completion before the next one starts. main.js calls `init` once per render
  request, each time with a new logger. Overlapping renders are not modelled. In the code, a second render
  redirects the earlier run's later log calls to its own logger, because `log` reads the module's logger
  when it fires. Two overlapping renders of one speech can also both miss the cache and both spawn rhubarb.
- main.js (Electron window, IPC) and app.js (yargs options) are not part of this model beyond the `Argv` fields they supply.
