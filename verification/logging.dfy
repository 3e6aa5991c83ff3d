/** The generator's `log` helper and its module-wide custom logger. */
module Logging {
  import opened JsValues

  /** Identity of a caller-supplied logging callback. */
  type LoggerId = string

  /** Which sink received a log call, and with what arguments; `M` is the
      type of the messages. */
  datatype LogCall<M> =
    | ConsoleLog(msg: M, data: Option<string>)
    | ConsoleError(msg: M, data: Option<string>)
    | Custom(logger: LoggerId, msg: M, data: Option<string>)

  /** Routes one log call. With a custom logger installed only that logger is
      called, and it is never told the level; otherwise level "error" goes to
      the console's error stream and every other level to its log stream. */
  function Log<M>(logger: Option<LoggerId>, level: string, msg: M, data: Option<string>): (c: LogCall<M>)
    ensures c.msg == msg && c.data == data
    ensures c.Custom? <==> logger.Some?
    ensures c.Custom? ==> c.logger == logger.value
    ensures c.ConsoleError? <==> (logger.None? && level == "error")
    ensures c.ConsoleLog? <==> (logger.None? && level != "error")
  {
    match logger
    case None => if level == "error" then ConsoleError(msg, data) else ConsoleLog(msg, data)
    case Some(l) => Custom(l, msg, data)
  }

  /** The custom logger after one `init` call: a supplied option replaces it,
      an absent one leaves the previous logger in place. */
  function InstallLogger(current: Option<LoggerId>, option: Option<LoggerId>): (next: Option<LoggerId>)
    ensures option.Some? ==> next == option
    ensures option.None? ==> next == current
  {
    if option.Some? then option else current
  }

  /** The custom logger after a series of `init` calls with the given options. */
  function InstallAll(current: Option<LoggerId>, options: seq<Option<LoggerId>>): Option<LoggerId>
    decreases |options|
  {
    if |options| == 0 then current
    else InstallAll(InstallLogger(current, options[0]), options[1..])
  }

  /** The last logger supplied in a series of options, if any. */
  function LastSupplied(options: seq<Option<LoggerId>>): Option<LoggerId>
    decreases |options|
  {
    if |options| == 0 then None
    else if options[|options| - 1].Some? then options[|options| - 1]
    else LastSupplied(options[..|options| - 1])
  }

  /** With a custom logger installed, the level does not influence the call. */
  lemma CustomLoggerIgnoresLevel<M>(l: LoggerId, level1: string, level2: string, msg: M, data: Option<string>)
    ensures Log(Some(l), level1, msg, data) == Log(Some(l), level2, msg, data)
    ensures Log(Some(l), level1, msg, data) == Custom(l, msg, data)
  {
  }

  /** Without a custom logger, only the exact level "error" reaches the error stream. */
  lemma ConsoleRouting<M>(level: string, msg: M, data: Option<string>)
    ensures level == "error" ==> Log(None, level, msg, data) == ConsoleError(msg, data)
    ensures level != "error" ==> Log(None, level, msg, data) == ConsoleLog(msg, data)
  {
  }

  /** Across repeated `init` calls the module keeps the most recently supplied
      logger, and falls back to the one installed before only if none was
      supplied: once installed, a custom logger is never removed. */
  lemma {:induction false} LoggerIsSticky(current: Option<LoggerId>, options: seq<Option<LoggerId>>)
    ensures LastSupplied(options).Some? ==> InstallAll(current, options) == LastSupplied(options)
    ensures LastSupplied(options).None? ==> InstallAll(current, options) == current
    ensures current.Some? ==> InstallAll(current, options).Some?
    decreases |options|
  {
    if |options| > 0 {
      var next := InstallLogger(current, options[0]);
      LoggerIsSticky(next, options[1..]);
      LastSuppliedOfTail(options);
    }
  }

  /** Splitting off the first option: the last supplied logger is the tail's,
      or the first option's when the tail supplies none. */
  lemma {:induction false} LastSuppliedOfTail(options: seq<Option<LoggerId>>)
    requires |options| > 0
    ensures LastSupplied(options[1..]).Some? ==> LastSupplied(options) == LastSupplied(options[1..])
    ensures LastSupplied(options[1..]).None? ==> LastSupplied(options) == options[0]
    decreases |options|
  {
    var n := |options|;
    if n > 1 {
      assert options[1..][..n - 2] == options[..n - 1][1..];
      if options[n - 1].None? {
        LastSuppliedOfTail(options[..n - 1]);
      }
    }
  }
}
