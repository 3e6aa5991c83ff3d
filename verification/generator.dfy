/** One call of the generator's `init`: pick the cue source (cached file or
    a fresh rhubarb run), write the ffconcat script and start the encoder.
    The file system, rhubarb and ffmpeg are abstract: the file system is a map
    from path to content, rhubarb's answer and the outcome of each write are
    inputs, and the effects are recorded as a list of events in the order
    the code issues them. */
module Generator {
  import opened JsValues
  import opened Logging
  import opened Timeline
  import opened CacheKeys

  /** The options `init` reads from its first argument. */
  datatype Argv = Argv(speech: string, transcript: string, out: string, imgset: string, skipExtended: Flag)

  /** A file's content: a JSON cue list, an ffconcat script, or text that is
      not valid JSON, such as what an interrupted write leaves behind. */
  datatype FileContent = CueJson(cues: seq<Cue>) | ScriptText(text: string) | Unparsable(raw: string)

  type FileSystem = map<string, FileContent>

  /** The JSON document rhubarb printed; only its `mouthCues` field is read
      (any array, even an empty one, is truthy). */
  datatype AnalyzerJson = AnalyzerJson(mouthCues: Option<seq<Cue>>)

  /** How a file write ends. `fs.writeFile` opens the path with flag 'w',
      which creates or truncates the file, before writing: `WriteErr` fails
      before the open and leaves the path as it was, `WriteCut` fails after
      it and leaves the incomplete text `raw`. */
  datatype WriteResult = WriteOk | WriteErr | WriteCut(raw: string)

  /** What the outside world answers during one run. */
  datatype Answers = Answers(analyzer: AnalyzerJson, cacheWrite: WriteResult, concatWrite: WriteResult)

  /** The installation directory and the two library functions the generator uses. */
  datatype Host = Host(dirname: string, md5: Hash, fmt: NumberFormat)

  /** The state that outlives a call: the files and the module's custom logger. */
  datatype World = World(fs: FileSystem, logger: Option<LoggerId>)

  /** The messages the generator logs; `MessageText` gives their wording. */
  datatype Message =
    | ParsingShapes | ParsedShapes | NoMouthCues | AlreadyScanned | Converted | ScriptWriteFailed

  function MessageText(m: Message): string
  {
    match m
    case ParsingShapes => "Parsing mouth shapes from audio..."
    case ParsedShapes => "Successfully parsed mouth shapes!"
    case NoMouthCues => "Failed to find mouthCues data in JSON"
    case AlreadyScanned => "Skipping a few steps as this speech file has already been scanned."
    case Converted => "Converted mouth shapes to ffconcat commands"
    case ScriptWriteFailed => "Failed to write ffconcat data to file!"
  }

  datatype Event =
    | Logged(call: LogCall<Message>)
    | SpawnedAnalyzer(program: string, args: seq<string>)
    | WroteFile(path: string, content: FileContent)
    | StartedEncoding(audio: string, concat: string, out: string)
    | Threw(path: string)

  datatype Run = Run(events: seq<Event>, after: World)

  /** Every log call among the events goes to `logger` when one is set, and
      to the console otherwise. */
  predicate LogsVia(events: seq<Event>, logger: Option<LoggerId>)
  {
    forall e :: e in events && e.Logged? ==>
      (e.call.Custom? <==> logger.Some?) && (logger.Some? ==> e.call.logger == logger.value)
  }

  const ExtendedShapes: string := "GHX"

  /** The extended-shapes argument: none when `skipExtended` is truthy. */
  function ShapesToUse(skipExtended: Flag): string
  {
    if Truthy(skipExtended) then "" else ExtendedShapes
  }

  /** The command line given to rhubarb. The dialog file flag and its value
      travel as one argument, as in the code. */
  function AnalyzerArgs(argv: Argv): (args: seq<string>)
    ensures |args| == 6
    ensures args[0] == argv.speech
    ensures args[1] == "--dialogFile " + argv.transcript
    ensures args[2] == "--exportFormat json" && args[3] == "--quiet"
    ensures args[4] == "--extendedShapes"
    ensures args[5] == "" <==> Truthy(argv.skipExtended)
    ensures !Truthy(argv.skipExtended) ==> args[5] == "GHX"
  {
    [argv.speech, "--dialogFile " + argv.transcript, "--exportFormat json", "--quiet",
     "--extendedShapes", ShapesToUse(argv.skipExtended)]
  }

  function AnalyzerProgram(dirname: string): string
  {
    dirname + "/rhubarb/rhubarb"
  }

  /** The file system after a write: the content on success, nothing changed
      when the write failed before opening, an unreadable file when it failed
      after. */
  function Write(fs: FileSystem, path: string, content: FileContent, result: WriteResult): (fs': FileSystem)
    ensures result == WriteOk ==> path in fs' && fs'[path] == content
    ensures result == WriteErr ==> fs' == fs
    ensures result.WriteCut? ==> path in fs' && fs'[path] == Unparsable(result.raw)
    ensures forall p :: p in fs && p != path ==> p in fs' && fs'[p] == fs[p]
    ensures forall p :: p in fs' && p != path ==> p in fs
  {
    match result
    case WriteOk => fs[path := content]
    case WriteErr => fs
    case WriteCut(raw) => fs[path := Unparsable(raw)]
  }

  /** The callback of the script write. It aborts, logging an error, only when
      there was an error and the file did not already exist; otherwise it
      starts the encoder on the speech audio and the script. */
  function GenerateVideo(err: bool, fileExistedAlready: bool, logger: Option<LoggerId>,
                         argv: Argv, concat: string): (events: seq<Event>)
    ensures (!fileExistedAlready && err) <==> StartedEncoding(argv.speech, concat, argv.out) !in events
    ensures (!fileExistedAlready && err) ==> events == [Logged(Log(logger, "error", ScriptWriteFailed, None))]
    ensures forall e :: e in events ==> e.Logged? || e == StartedEncoding(argv.speech, concat, argv.out)
    ensures LogsVia(events, logger)
  {
    if !fileExistedAlready && err then
      [Logged(Log(logger, "error", ScriptWriteFailed, None))]
    else
      [Logged(Log(logger, "info", ParsedShapes, None)),
       StartedEncoding(argv.speech, concat, argv.out)]
  }

  /** Compiles the cues, writes the script and runs the write's callback,
      which receives only the error (so `fileExistedAlready` is undefined). */
  function MakeVideo(fs: FileSystem, logger: Option<LoggerId>, host: Host, argv: Argv,
                     concat: string, cues: seq<Cue>, result: WriteResult): (run: Run)
    ensures LogsVia(run.events, logger)
  {
    var script := Script(cues, argv.imgset, host.fmt);
    var events :=
      [Logged(Log(logger, "info", Converted, None)),
       WroteFile(concat, ScriptText(script))]
      + GenerateVideo(result != WriteOk, false, logger, argv, concat);
    Run(events, World(Write(fs, concat, ScriptText(script), result), logger))
  }

  /** Where the cues come from in one run. */
  datatype CueSource = Cached(cues: seq<Cue>) | Analysed(cues: seq<Cue>) | NoCues | CacheUnreadable

  /** The "already scanned?" decision: an existing cue file is used as it is,
      otherwise rhubarb's `mouthCues` field, if present. */
  function ChooseSource(fs: FileSystem, json: string, analyzer: AnalyzerJson): (src: CueSource)
    ensures json in fs ==> !src.Analysed? && !src.NoCues?
    ensures json in fs && fs[json].CueJson? ==> src == Cached(fs[json].cues)
    ensures json !in fs ==> (src.Analysed? <==> analyzer.mouthCues.Some?)
    ensures json !in fs ==> !src.Cached? && !src.CacheUnreadable?
    ensures json in fs && !fs[json].CueJson? ==> src == CacheUnreadable
    ensures src.Analysed? ==> src.cues == analyzer.mouthCues.value
  {
    if json !in fs then
      match analyzer.mouthCues
      case Some(cues) => Analysed(cues)
      case None => NoCues
    else
      match fs[json]
      case CueJson(cues) => Cached(cues)
      case _ => CacheUnreadable
  }

  /** What a cache miss does before rhubarb answers: announce and spawn it. */
  function Analysing(logger: Option<LoggerId>, host: Host, argv: Argv): (events: seq<Event>)
    ensures LogsVia(events, logger)
  {
    [Logged(Log(logger, "info", ParsingShapes, None)),
     SpawnedAnalyzer(AnalyzerProgram(host.dirname), AnalyzerArgs(argv))]
  }

  /** A miss whose answer has `mouthCues`: save them, then make the video. */
  function AnalysedRun(fs: FileSystem, logger: Option<LoggerId>, host: Host, argv: Argv,
                       json: string, concat: string, cues: seq<Cue>, answers: Answers): (run: Run)
    ensures LogsVia(run.events, logger)
  {
    var saved := Write(fs, json, CueJson(cues), answers.cacheWrite);
    var video := MakeVideo(saved, logger, host, argv, concat, cues, answers.concatWrite);
    Run(Analysing(logger, host, argv)
        + [Logged(Log(logger, "info", ParsedShapes, None)),
           WroteFile(json, CueJson(cues))]
        + video.events,
        video.after)
  }

  /** A miss whose answer lacks `mouthCues`: report it and stop. */
  function NoCuesRun(fs: FileSystem, logger: Option<LoggerId>, host: Host, argv: Argv): (run: Run)
    ensures LogsVia(run.events, logger)
  {
    Run(Analysing(logger, host, argv) + [Logged(Log(logger, "error", NoMouthCues, None))],
        World(fs, logger))
  }

  /** A hit: announce the shortcut, then make the video from the saved cues. */
  function CachedRun(fs: FileSystem, logger: Option<LoggerId>, host: Host, argv: Argv,
                     concat: string, cues: seq<Cue>, result: WriteResult): (run: Run)
    ensures LogsVia(run.events, logger)
  {
    var video := MakeVideo(fs, logger, host, argv, concat, cues, result);
    Run([Logged(Log(logger, "info", AlreadyScanned, None))]
        + video.events,
        video.after)
  }

  /** One call of `init(argv, customLogger)`. */
  function Init(w: World, argv: Argv, customLogger: Option<LoggerId>, host: Host, answers: Answers): (run: Run)
    ensures run.after.logger == InstallLogger(w.logger, customLogger)
    ensures LogsVia(run.events, run.after.logger)
    ensures (SpawnedAnalyzer(AnalyzerProgram(host.dirname), AnalyzerArgs(argv)) in run.events)
            <==> CachePaths(host.dirname, host.md5, argv.speech).0 !in w.fs
  {
    var logger := InstallLogger(w.logger, customLogger);
    var (json, concat) := CachePaths(host.dirname, host.md5, argv.speech);
    match ChooseSource(w.fs, json, answers.analyzer)
    case Analysed(cues) =>
      var run := AnalysedRun(w.fs, logger, host, argv, json, concat, cues, answers);
      assert run.events[1] == SpawnedAnalyzer(AnalyzerProgram(host.dirname), AnalyzerArgs(argv));
      run
    case NoCues =>
      var run := NoCuesRun(w.fs, logger, host, argv);
      assert run.events[1] == SpawnedAnalyzer(AnalyzerProgram(host.dirname), AnalyzerArgs(argv));
      run
    case Cached(cues) =>
      CachedRun(w.fs, logger, host, argv, concat, cues, answers.concatWrite)
    case CacheUnreadable =>
      Run([Threw(json)], World(w.fs, logger))
  }

  /** Whether a run wrote anything or started the encoder. */
  predicate Quiet(events: seq<Event>)
  {
    forall e :: e in events ==> !e.WroteFile? && !e.StartedEncoding?
  }

  /** With the cue file already present, rhubarb is never spawned, its
      answer is irrelevant, and the cached cues go unchanged into the script. */
  lemma CacheHitSkipsAnalysis(w: World, argv: Argv, customLogger: Option<LoggerId>, host: Host, a1: Answers, a2: Answers)
    requires CachePaths(host.dirname, host.md5, argv.speech).0 in w.fs
    requires w.fs[CachePaths(host.dirname, host.md5, argv.speech).0].CueJson?
    requires a1.concatWrite == a2.concatWrite
    ensures forall e :: e in Init(w, argv, customLogger, host, a1).events ==> !e.SpawnedAnalyzer?
    ensures WroteFile(CachePaths(host.dirname, host.md5, argv.speech).1,
                      ScriptText(Script(w.fs[CachePaths(host.dirname, host.md5, argv.speech).0].cues, argv.imgset, host.fmt)))
            in Init(w, argv, customLogger, host, a1).events
    ensures Init(w, argv, customLogger, host, a1) == Init(w, argv, customLogger, host, a2)
  {

  }

  /** A miss with `mouthCues` in rhubarb's answer saves exactly those cues and
      scripts exactly those cues; if the save succeeds the cue file holds them,
      and if it is cut after the open the file holds the incomplete text. */
  lemma MissWithCues(w: World, argv: Argv, customLogger: Option<LoggerId>, host: Host, answers: Answers)
    requires CachePaths(host.dirname, host.md5, argv.speech).0 !in w.fs
    requires answers.analyzer.mouthCues.Some?
    ensures WroteFile(CachePaths(host.dirname, host.md5, argv.speech).0, CueJson(answers.analyzer.mouthCues.value))
            in Init(w, argv, customLogger, host, answers).events
    ensures WroteFile(CachePaths(host.dirname, host.md5, argv.speech).1,
                      ScriptText(Script(answers.analyzer.mouthCues.value, argv.imgset, host.fmt)))
            in Init(w, argv, customLogger, host, answers).events
    ensures answers.cacheWrite == WriteOk ==>
              var fs' := Init(w, argv, customLogger, host, answers).after.fs;
              CachePaths(host.dirname, host.md5, argv.speech).0 in fs'
              && fs'[CachePaths(host.dirname, host.md5, argv.speech).0] == CueJson(answers.analyzer.mouthCues.value)
    ensures answers.cacheWrite.WriteCut? ==>
              var fs' := Init(w, argv, customLogger, host, answers).after.fs;
              CachePaths(host.dirname, host.md5, argv.speech).0 in fs'
              && fs'[CachePaths(host.dirname, host.md5, argv.speech).0] == Unparsable(answers.cacheWrite.raw)
  {

  }

  /** A miss whose answer lacks `mouthCues` writes nothing, encodes nothing
      and leaves the files as they were. */
  lemma MissWithoutCues(w: World, argv: Argv, customLogger: Option<LoggerId>, host: Host, answers: Answers)
    requires CachePaths(host.dirname, host.md5, argv.speech).0 !in w.fs
    requires answers.analyzer.mouthCues.None?
    ensures Quiet(Init(w, argv, customLogger, host, answers).events)
    ensures Init(w, argv, customLogger, host, answers).after.fs == w.fs
  {
  }

  /** The script step starts the encoder exactly when the script write succeeded,
      and never starts it on other files. */
  lemma MakeVideoEncodes(fs: FileSystem, logger: Option<LoggerId>, host: Host, argv: Argv,
                         concat: string, cues: seq<Cue>, result: WriteResult)
    ensures StartedEncoding(argv.speech, concat, argv.out) in MakeVideo(fs, logger, host, argv, concat, cues, result).events
            <==> result == WriteOk
    ensures forall e :: e in MakeVideo(fs, logger, host, argv, concat, cues, result).events && e.StartedEncoding? ==>
              e == StartedEncoding(argv.speech, concat, argv.out)
  {
    var video := MakeVideo(fs, logger, host, argv, concat, cues, result);
    assert video.events == video.events[..2] + GenerateVideo(result != WriteOk, false, logger, argv, concat);
  }

  /** The encoder starts exactly when cues were found and the script was written. */
  lemma EncodeIffScriptWritten(w: World, argv: Argv, customLogger: Option<LoggerId>, host: Host, answers: Answers)
    ensures var paths := CachePaths(host.dirname, host.md5, argv.speech);
            var src := ChooseSource(w.fs, paths.0, answers.analyzer);
            StartedEncoding(argv.speech, paths.1, argv.out) in Init(w, argv, customLogger, host, answers).events
            <==> (src.Cached? || src.Analysed?) && answers.concatWrite == WriteOk
  {
    var paths := CachePaths(host.dirname, host.md5, argv.speech);
    var logger := InstallLogger(w.logger, customLogger);
    match ChooseSource(w.fs, paths.0, answers.analyzer)
    case Analysed(cues) =>
      MakeVideoEncodes(Write(w.fs, paths.0, CueJson(cues), answers.cacheWrite), logger, host, argv, paths.1, cues, answers.concatWrite);
    case Cached(cues) =>
      MakeVideoEncodes(w.fs, logger, host, argv, paths.1, cues, answers.concatWrite);
    case NoCues =>
    case CacheUnreadable =>
  }

  /** The encoder is only ever started on the speech audio and this run's script. */
  lemma EncodesOnlyThisScript(w: World, argv: Argv, customLogger: Option<LoggerId>, host: Host, answers: Answers)
    ensures forall e :: e in Init(w, argv, customLogger, host, answers).events && e.StartedEncoding? ==>
              e == StartedEncoding(argv.speech, CachePaths(host.dirname, host.md5, argv.speech).1, argv.out)
  {
    var paths := CachePaths(host.dirname, host.md5, argv.speech);
    var logger := InstallLogger(w.logger, customLogger);
    match ChooseSource(w.fs, paths.0, answers.analyzer)
    case Analysed(cues) =>
      MakeVideoEncodes(Write(w.fs, paths.0, CueJson(cues), answers.cacheWrite), logger, host, argv, paths.1, cues, answers.concatWrite);
    case Cached(cues) =>
      MakeVideoEncodes(w.fs, logger, host, argv, paths.1, cues, answers.concatWrite);
    case NoCues =>
    case CacheUnreadable =>
  }

  /** Run again after a miss whose cues were saved, with the same speech
      argument but any other options: rhubarb is not spawned again and the
      saved cues are scripted, even if rhubarb would now answer differently. */
  lemma RerunHitsCache(w: World, argv: Argv, argv2: Argv, l1: Option<LoggerId>, l2: Option<LoggerId>,
                       host: Host, answers: Answers, answers2: Answers)
    requires CachePaths(host.dirname, host.md5, argv.speech).0 !in w.fs
    requires answers.analyzer.mouthCues.Some?
    requires answers.cacheWrite == WriteOk
    requires argv2.speech == argv.speech
    ensures var second := Init(Init(w, argv, l1, host, answers).after, argv2, l2, host, answers2);
            && (forall e :: e in second.events ==> !e.SpawnedAnalyzer?)
            && WroteFile(CachePaths(host.dirname, host.md5, argv.speech).1,
                         ScriptText(Script(answers.analyzer.mouthCues.value, argv2.imgset, host.fmt)))
               in second.events
  {
    var first := Init(w, argv, l1, host, answers);
    MissWithCues(w, argv, l1, host, answers);
    CacheHitSkipsAnalysis(first.after, argv2, l2, host, answers2, answers2);
  }

  /** A cache write that fails after the open leaves an unreadable cue file:
      every later run for the same speech finds it, cannot load it and throws
      before logging anything, spawns no rhubarb and repairs nothing, so the
      speech stays unprocessable until the file is removed. */
  lemma CutCacheWritePoisons(w: World, argv: Argv, argv2: Argv, l1: Option<LoggerId>, l2: Option<LoggerId>,
                             host: Host, answers: Answers, answers2: Answers)
    requires CachePaths(host.dirname, host.md5, argv.speech).0 !in w.fs
    requires answers.analyzer.mouthCues.Some?
    requires answers.cacheWrite.WriteCut?
    requires argv2.speech == argv.speech
    ensures var first := Init(w, argv, l1, host, answers);
            var second := Init(first.after, argv2, l2, host, answers2);
            && second.events == [Threw(CachePaths(host.dirname, host.md5, argv.speech).0)]
            && second.after.fs == first.after.fs
  {
    var key := host.md5(argv.speech);
    ScriptNeverClobbersCache(host.dirname, key, key);
  }

  /** An existing cue file that is not valid JSON makes the run throw before
      logging anything, and the run changes no file. */
  lemma UnreadableCueFileThrows(w: World, argv: Argv, customLogger: Option<LoggerId>, host: Host, answers: Answers)
    requires CachePaths(host.dirname, host.md5, argv.speech).0 in w.fs
    requires w.fs[CachePaths(host.dirname, host.md5, argv.speech).0].Unparsable?
    ensures Init(w, argv, customLogger, host, answers).events == [Threw(CachePaths(host.dirname, host.md5, argv.speech).0)]
    ensures Init(w, argv, customLogger, host, answers).after.fs == w.fs
  {
  }

  /** A cue file, once present, is never rewritten: a run for any speech
      leaves every existing cue file as it was. */
  lemma ExistingCueFileStable(w: World, argv: Argv, customLogger: Option<LoggerId>, host: Host, answers: Answers,
                              speech: string)
    requires CachePaths(host.dirname, host.md5, speech).0 in w.fs
    ensures var fs' := Init(w, argv, customLogger, host, answers).after.fs;
            CachePaths(host.dirname, host.md5, speech).0 in fs'
            && fs'[CachePaths(host.dirname, host.md5, speech).0] == w.fs[CachePaths(host.dirname, host.md5, speech).0]
  {
    ScriptNeverClobbersCache(host.dirname, host.md5(speech), host.md5(argv.speech));
  }

  /** One `init` call: its options, its logger option and what the outside world answers. */
  datatype Call = Call(argv: Argv, customLogger: Option<LoggerId>, answers: Answers)

  /** The state after a series of `init` calls, each run to completion before the next. */
  function RunAll(w: World, host: Host, calls: seq<Call>): World
    decreases |calls|
  {
    if |calls| == 0 then w
    else RunAll(Init(w, calls[0].argv, calls[0].customLogger, host, calls[0].answers).after, host, calls[1..])
  }

  /** Any series of runs, for any speeches, leaves an existing cue file as it was. */
  lemma {:induction false} CueFileSurvivesRuns(w: World, host: Host, calls: seq<Call>, speech: string)
    requires CachePaths(host.dirname, host.md5, speech).0 in w.fs
    ensures var fs' := RunAll(w, host, calls).fs;
            CachePaths(host.dirname, host.md5, speech).0 in fs'
            && fs'[CachePaths(host.dirname, host.md5, speech).0] == w.fs[CachePaths(host.dirname, host.md5, speech).0]
    decreases |calls|
  {
    if |calls| > 0 {
      var c := calls[0];
      ExistingCueFileStable(w, c.argv, c.customLogger, host, c.answers, speech);
      CueFileSurvivesRuns(Init(w, c.argv, c.customLogger, host, c.answers).after, host, calls[1..], speech);
    }
  }

  /** An unreadable cue file, such as a cut cache write leaves, is never
      repaired: whatever runs follow, for this speech or others, the next run
      for this speech throws at once and changes no file. */
  lemma {:induction false} CutCacheStaysPoisoned(w: World, host: Host, calls: seq<Call>, later: Call)
    requires CachePaths(host.dirname, host.md5, later.argv.speech).0 in w.fs
    requires w.fs[CachePaths(host.dirname, host.md5, later.argv.speech).0].Unparsable?
    ensures var before := RunAll(w, host, calls);
            var run := Init(before, later.argv, later.customLogger, host, later.answers);
            && run.events == [Threw(CachePaths(host.dirname, host.md5, later.argv.speech).0)]
            && run.after.fs == before.fs
  {
    CueFileSurvivesRuns(w, host, calls, later.argv.speech);
    UnreadableCueFileThrows(RunAll(w, host, calls), later.argv, later.customLogger, host, later.answers);
  }

  /** The transcript and the shape-set option take no part in the cache key:
      on a hit, runs that differ only in them are identical, so cues analysed
      under other settings are reused as they are. */
  lemma OptionsOutsideCacheKey(w: World, argv: Argv, transcript: string, skipExtended: Flag,
                               customLogger: Option<LoggerId>, host: Host, answers: Answers)
    requires CachePaths(host.dirname, host.md5, argv.speech).0 in w.fs
    ensures Init(w, argv, customLogger, host, answers)
            == Init(w, argv.(transcript := transcript, skipExtended := skipExtended), customLogger, host, answers)
  {
  }
}
