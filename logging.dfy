/**
 `setup_logger`: the logging configuration dictionary it builds step by
 step and hands to `logging.config.dictConfig`. Creating the log directory
 and applying the configuration are not part of this model.
 */
module Logging {
  import opened Wrappers

  datatype Level = DEBUG | INFO | WARNING

  /** Where a handler writes: a `logging.StreamHandler` on a stream or a `logging.FileHandler` on a file. */
  datatype Target =
    | StreamHandler(stream: string)
    | FileHandler(filename: string, encoding: string)

  /** A handler entry of the configuration. */
  datatype Handler = Handler(level: Level, formatter: string, target: Target)

  /** A logger entry: the names of its handlers, in order, and its level. */
  datatype LoggerConf = LoggerConf(handlers: seq<string>, level: Level)

  datatype LogConfig = LogConfig(
    version: int,
    disableExistingLoggers: bool,
    formatters: map<string, string>,
    handlers: map<string, Handler>,
    loggers: map<string, LoggerConf>)

  /** The command-line options `setup_logger` reads; `logfile` is the path, when one was given. */
  datatype Args = Args(logfile: Option<string>, quiet: bool, debug: bool)

  /** `__package__`, the name of the package logger. */
  const Package := "simple_network_sim"

  const StandardFormat := "[%(asctime)s] [%(name)s] [%(levelname)s] %(message)s"

  /**
   The configuration `setup_logger(args)` passes to `dictConfig`. The package
   logger always logs at DEBUG. The stderr handler logs at WARNING when quiet
   is set (whatever debug says), at DEBUG when only debug is set, and at INFO
   otherwise, also when there are no arguments at all. A logfile handler
   exists exactly when a path is given; it logs to that path at DEBUG when
   debug is set and quiet is not, and at INFO otherwise.
   */
  method SetupLogger(args: Option<Args>) returns (logconf: LogConfig)
    ensures logconf.version == 1 && !logconf.disableExistingLoggers
    ensures logconf.formatters == map["standard" := StandardFormat]
    ensures logconf.loggers.Keys == {Package} && logconf.loggers[Package].level == DEBUG
    ensures "stderr" in logconf.handlers
    ensures logconf.handlers["stderr"] == Handler(
      if args.Some? && args.value.quiet then WARNING
      else if args.Some? && args.value.debug then DEBUG
      else INFO,
      "standard", StreamHandler("ext://sys.stderr"))
    ensures "logfile" in logconf.handlers <==> args.Some? && args.value.logfile.Some?
    ensures logconf.handlers.Keys <= {"stderr", "logfile"}
    ensures logconf.loggers[Package].handlers ==
      if args.Some? && args.value.logfile.Some? then ["stderr", "logfile"] else ["stderr"]
    ensures args.Some? && args.value.logfile.Some? ==> logconf.handlers["logfile"] == Handler(
      if args.value.debug && !args.value.quiet then DEBUG else INFO,
      "standard", FileHandler(args.value.logfile.value, "utf8"))
  {
    logconf := LogConfig(
      1,
      false,
      map["standard" := StandardFormat],
      map["stderr" := Handler(INFO, "standard", StreamHandler("ext://sys.stderr"))],
      map[Package := LoggerConf(["stderr"], DEBUG)]);

    if args.Some? && args.value.logfile.Some? {
      var logfile := Handler(INFO, "standard", FileHandler(args.value.logfile.value, "utf8"));
      logconf := logconf.(handlers := logconf.handlers["logfile" := logfile]);
      var package := logconf.loggers[Package];
      logconf := logconf.(loggers := logconf.loggers[Package := package.(handlers := package.handlers + ["logfile"])]);
    }

    if args.Some? && args.value.quiet {
      logconf := logconf.(handlers := logconf.handlers["stderr" := logconf.handlers["stderr"].(level := WARNING)]);
    } else if args.Some? && args.value.debug {
      logconf := logconf.(handlers := logconf.handlers["stderr" := logconf.handlers["stderr"].(level := DEBUG)]);
      if "logfile" in logconf.handlers {
        logconf := logconf.(handlers := logconf.handlers["logfile" := logconf.handlers["logfile"].(level := DEBUG)]);
      }
    }
  }
}
