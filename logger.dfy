/**
 * The dual-sink logger: the per-level writer table built by `TLogInit.Init`
 * and the `Alert` dispatcher that writes through it. The two sinks are the
 * lines that reach standard output and the lines that reach the log file.
 */
module Logger {
  import opened Wrappers
  import opened Levels
  import opened Text

  /** Where a `log.Logger` writes: standard output, the open log file, or the
      nil `*os.File` left when no file was configured (whose writes fail
      silently, so nothing arrives anywhere). */
  datatype Dest = Stdout | LogFile | NoFile

  /** A `log.Logger` as configured by `log.New`: its destination, its prefix,
      and whether `Ltime` is among its flags. */
  datatype Writer = Writer(dest: Dest, prefix: string, stamped: bool)

  /** `TLogDist`: the terminal and the file writer of one level. */
  datatype LogDist = LogDist(term: Writer, file: Writer)

  /** `TLogInit`, with the file handle reduced to whether one is open. */
  datatype LogInit = LogInit(verbose: Option<bool>, logLevel: string, hasFile: bool)

  /** One record as a writer emits it: prefix, time-stamp flag, and payload. */
  datatype Line = Line(prefix: string, stamped: bool, text: string)

  /** What `Alert` decides to write: nothing, or for the resolved level an
      optional terminal payload and a file payload. */
  datatype Delivery = Suppressed | Deliver(level: string, term: Option<string>, file: string)

  function FileDest(hasFile: bool): Dest {
    if hasFile then LogFile else NoFile
  }

  /** The terminal prefix of a level: "notset" gets green dots, every other
      level its colour, bold, its upper-cased name and a dash. */
  function TermPrefix(p: Palette, name: string): string {
    if name == "notset" then "[ " + p.green + ".." + p.reset + " ] "
    else "[ " + ColorOf(p, name) + p.bold + ToUpper(name) + p.reset + " ] - "
  }

  /** The file prefix of a level: fixed dots for "notset", otherwise the
      upper-cased name and a dash. */
  function FilePrefix(name: string): string {
    if name == "notset" then "[ .. ] " else "[ " + ToUpper(name) + " ] - "
  }

  /** The `GroupLogger` entry `Init` builds for one level name. */
  function DistFor(p: Palette, name: string, hasFile: bool): (d: LogDist)
    ensures d.term.dest == Stdout && d.file.dest == FileDest(hasFile)
    ensures d.term.stamped == d.file.stamped == (name != "notset")
  {
    LogDist(Writer(Stdout, TermPrefix(p, name), name != "notset"),
            Writer(FileDest(hasFile), FilePrefix(name), name != "notset"))
  }

  /** The whole table `Init` builds: one entry per registered level. */
  function LoggerTable(p: Palette, hasFile: bool): (t: map<string, LogDist>)
    ensures t.Keys == LogLevels.Keys
  {
    map name | name in LogLevels :: DistFor(p, name, hasFile)
  }

  /** The entries `Init` has written once the names in `done` are processed. */
  function PartialTable(p: Palette, done: set<string>, hasFile: bool): map<string, LogDist> {
    map name | name in done :: DistFor(p, name, hasFile)
  }

  /** Processing one more name adds exactly its entry. */
  lemma PartialTableStep(p: Palette, done: set<string>, name: string, hasFile: bool, before: map<string, LogDist>)
    ensures (before + PartialTable(p, done, hasFile))[name := DistFor(p, name, hasFile)]
            == before + PartialTable(p, done + {name}, hasFile)
  {
  }

  /** Overwriting every key of `before` leaves only the new table. */
  lemma TableOverwrites(p: Palette, hasFile: bool, before: map<string, LogDist>)
    requires before.Keys <= LogLevels.Keys
    ensures before + PartialTable(p, LogLevels.Keys, hasFile) == LoggerTable(p, hasFile)
  {
  }

  /** The table's entries: terminal writers go to standard output, file
      writers to the configured file; "notset" alone is unstamped and carries
      fixed dotted prefixes, every other level its upper-cased name, on the
      terminal also in its colour (none for "skip") and bold. */
  lemma TableEntries(p: Palette, hasFile: bool, name: string)
    requires name in LogLevels
    ensures var d := LoggerTable(p, hasFile)[name];
      && d.term.dest == Stdout
      && d.file.dest == (if hasFile then LogFile else NoFile)
      && d.term.stamped == d.file.stamped == (name != "notset")
      && (name == "notset" ==> d.term.prefix == "[ " + p.green + ".." + p.reset + " ] " && d.file.prefix == "[ .. ] ")
      && (name != "notset" ==>
            && d.term.prefix == "[ " + ColorOf(p, name) + p.bold + ToUpper(name) + p.reset + " ] - "
            && d.file.prefix == "[ " + ToUpper(name) + " ] - ")
      && (name == "skip" ==> d.term.prefix == "[ " + p.bold + "SKIP" + p.reset + " ] - ")
  {
    assert ToUpper("skip") == "SKIP";
    assert "[ " + "" == "[ ";
  }

  /** The gating and routing rule of `Alert` for a given threshold, verbosity,
      optional (already rendered) error, requested level and message. */
  function Dispatch(p: Palette, threshold: string, verbose: bool,
                    err: Option<string>, level: string, msg: string): (d: Delivery)
    ensures d.Deliver? <==> Admits(threshold, ResolveLevel(err, level))
    ensures d.Deliver? ==> d.level == ResolveLevel(err, level) && (d.term.Some? <==> verbose)
  {
    var l := ResolveLevel(err, level);
    if !Admits(threshold, l) then Suppressed
    else if l == "notset" then
      Deliver(l, if verbose then Some(msg) else None, msg)
    else if err.Some? then
      Deliver(l, if verbose then Some(msg + " [ " + p.brown + err.value + p.reset + " ]\n") else None,
              msg + " [ " + err.value + " ]\n")
    else
      Deliver(l, if verbose then Some(msg + "\n") else None, msg + "\n")
  }

  /** Payloads by case: a "notset" message goes out raw; otherwise the file
      payload is the message, the bracketed error if there is one, and a
      newline; the terminal payload differs only by the colour around the
      error, so with colourless styles the two are identical. */
  lemma DispatchPayloads(p: Palette, threshold: string, verbose: bool,
                         err: Option<string>, level: string, msg: string)
    requires Dispatch(p, threshold, verbose, err, level, msg).Deliver?
    ensures var d := Dispatch(p, threshold, verbose, err, level, msg);
      && (d.level == "notset" ==> d.file == msg)
      && (d.level != "notset" && err.Some? ==> d.file == msg + " [ " + err.value + " ]\n")
      && (d.level != "notset" && err.None? ==> d.file == msg + "\n")
      && (d.level != "notset" && err.Some? && verbose ==>
            d.term == Some(msg + " [ " + p.brown + err.value + p.reset + " ]\n"))
      && (verbose && (err.None? || d.level == "notset" || p.brown == p.reset == "") ==> d.term == Some(d.file))
  {
    var d := Dispatch(p, threshold, verbose, err, level, msg);
    if verbose && err.Some? && d.level != "notset" && p.brown == p.reset == "" {
      assert msg + " [ " + p.brown + err.value + p.reset + " ]\n" == msg + " [ " + err.value + " ]\n";
    }
  }

  /** A "skip" threshold delivers every message; a "notset" threshold only
      "notset" messages (and messages with names the registry lacks). */
  lemma DispatchAtSentinelThresholds(p: Palette, verbose: bool, err: Option<string>, level: string, msg: string)
    ensures Dispatch(p, "skip", verbose, err, level, msg).Deliver?
    ensures Dispatch(p, "notset", verbose, err, level, msg).Deliver? <==>
              (var l := ResolveLevel(err, level); l == "notset" || l !in LogLevels)
  {
    SkipAdmitsAll(ResolveLevel(err, level));
    NotsetAdmitsOnlyNotset(ResolveLevel(err, level));
  }

  /** A failed connection reported with no level at a "warn" threshold is
      logged as an error: coloured on the terminal, plain in the file. An
      informational message at the same threshold is dropped. */
  lemma ConnectFailedExample(p: Palette)
    ensures Dispatch(p, "warn", true, Some("io timeout"), "", "connect failed")
            == Deliver("error", Some("connect failed [ " + p.brown + "io timeout" + p.reset + " ]\n"),
                       "connect failed [ io timeout ]\n")
    ensures Dispatch(p, "warn", true, None, "", "connected") == Suppressed
  {
    assert Rank("warn") == WARN && Rank("error") == ERROR && Rank("info") == INFO;
    assert ResolveLevel(Some("io timeout"), "") == "error" != "notset";
    assert "connect failed" + " [ " == "connect failed [ ";
    assert "connect failed" + " [ " + "io timeout" + " ]\n" == "connect failed [ io timeout ]\n";
  }

  /** The record writer `w` puts on destination `dest` for payload `text`. */
  function Record(w: Writer, text: string, dest: Dest): seq<Line> {
    if w.dest == dest then [Line(w.prefix, w.stamped, text)] else []
  }

  /** The records a delivery puts on destination `dest` through `table`:
      first the terminal writer's, then the file writer's. */
  function Outputs(d: Delivery, table: map<string, LogDist>, dest: Dest): seq<Line>
    requires d.Deliver? ==> d.level in table
  {
    if d.Suppressed? then [] else Emitted(table[d.level], d.term, d.file, dest)
  }

  /** The records one level's writers put on `dest`: the terminal payload,
      when there is one, before the file payload. */
  function Emitted(dist: LogDist, term: Option<string>, file: string, dest: Dest): seq<Line> {
    (if term.Some? then Record(dist.term, term.value, dest) else []) + Record(dist.file, file, dest)
  }

  /** Through the table `Init` builds, a delivered message puts exactly one
      record on the terminal when verbose and none otherwise, and exactly one
      in the file when a file is open and none otherwise; each record carries
      its level's prefix. A suppressed message puts nothing anywhere. */
  lemma OutputsThroughTable(p: Palette, hasFile: bool, threshold: string, verbose: bool,
                            err: Option<string>, level: string, msg: string)
    requires var l := ResolveLevel(err, level); Admits(threshold, l) ==> l in LogLevels
    ensures var d := Dispatch(p, threshold, verbose, err, level, msg);
      var t := LoggerTable(p, hasFile);
      && (d.Suppressed? ==> Outputs(d, t, Stdout) == [] && Outputs(d, t, LogFile) == [])
      && (d.Deliver? ==>
            && Outputs(d, t, Stdout) == (if verbose then [Line(t[d.level].term.prefix, d.level != "notset", d.term.value)] else [])
            && Outputs(d, t, LogFile) == (if hasFile then [Line(t[d.level].file.prefix, d.level != "notset", d.file)] else []))
  {
  }

  /** The package-level state: configuration, the `GroupLogger` table, and
      the two sinks. */
  class LogState {
    const palette: Palette
    var verbose: Option<bool>
    var logLevel: string
    var hasFile: bool
    var groupLogger: map<string, LogDist>
    var termLog: seq<Line>
    var fileLog: seq<Line>

    /** The state before `Init`: nil `verbose`, empty level, no file, empty table. */
    constructor (p: Palette)
      ensures palette == p && verbose == None && logLevel == "" && !hasFile
      ensures groupLogger == map[] && termLog == [] && fileLog == []
    {
      palette := p;
      verbose := None;
      logLevel := "";
      hasFile := false;
      groupLogger := map[];
      termLog := [];
      fileLog := [];
    }

    /** `TLogInit.Init`: store the configuration and write one table entry per
        registered level; entries already in the table are overwritten. */
    method Init(cfg: LogInit)
      modifies this
      ensures verbose == cfg.verbose && logLevel == cfg.logLevel && hasFile == cfg.hasFile
      ensures groupLogger == old(groupLogger) + LoggerTable(palette, cfg.hasFile)
      ensures old(groupLogger).Keys <= LogLevels.Keys ==> groupLogger == LoggerTable(palette, cfg.hasFile)
      ensures termLog == old(termLog) && fileLog == old(fileLog)
    {
      verbose := cfg.verbose;
      logLevel := cfg.logLevel;
      hasFile := cfg.hasFile;

      var pending := LogLevels.Keys;
      while pending != {}
        invariant pending <= LogLevels.Keys
        invariant groupLogger == old(groupLogger) + PartialTable(palette, LogLevels.Keys - pending, hasFile)
        invariant verbose == cfg.verbose && logLevel == cfg.logLevel && hasFile == cfg.hasFile
        invariant termLog == old(termLog) && fileLog == old(fileLog)
        decreases pending
      {
        var name :| name in pending;
        PartialTableStep(palette, LogLevels.Keys - pending, name, hasFile, old(groupLogger));
        groupLogger := groupLogger[name := DistFor(palette, name, hasFile)];
        assert LogLevels.Keys - pending + {name} == LogLevels.Keys - (pending - {name});
        pending := pending - {name};
      }
      assert LogLevels.Keys - pending == LogLevels.Keys;
      assert PartialTable(palette, LogLevels.Keys, hasFile) == LoggerTable(palette, hasFile);
      if old(groupLogger).Keys <= LogLevels.Keys {
        TableOverwrites(palette, hasFile, old(groupLogger));
      }
    }

    /** One `Printf`/`Println` on writer `w`: the record lands on the writer's
        destination, and on the nil file nowhere. */
    method Output(w: Writer, text: string)
      modifies this`termLog, this`fileLog
      ensures termLog == old(termLog) + Record(w, text, Stdout)
      ensures fileLog == old(fileLog) + Record(w, text, LogFile)
    {
      if w.dest == Stdout {
        termLog := termLog + [Line(w.prefix, w.stamped, text)];
      } else if w.dest == LogFile {
        fileLog := fileLog + [Line(w.prefix, w.stamped, text)];
      }
    }

    /** The writes of one delivered alert: the terminal writer's, when there
        is a terminal payload, then the file writer's. */
    method Emit(dist: LogDist, term: Option<string>, file: string)
      modifies this`termLog, this`fileLog
      ensures termLog == old(termLog) + Emitted(dist, term, file, Stdout)
      ensures fileLog == old(fileLog) + Emitted(dist, term, file, LogFile)
    {
      if term.Some? { Output(dist.term, term.value); }
      Output(dist.file, file);
    }

    /** `Alert`: resolve the level, gate on the threshold, then write the
        payload through the level's terminal writer (when verbose) and its
        file writer. The nil `verbose` and a level missing from the table are
        dereferenced only once the gate has passed. */
    method Alert(err: Option<string>, level: string, msg: string)
      requires Admits(logLevel, ResolveLevel(err, level)) ==>
                 verbose.Some? && ResolveLevel(err, level) in groupLogger
      modifies this`termLog, this`fileLog
      ensures var d := Dispatch(palette, logLevel, verbose == Some(true), err, level, msg);
        && termLog == old(termLog) + Outputs(d, groupLogger, Stdout)
        && fileLog == old(fileLog) + Outputs(d, groupLogger, LogFile)
    {
      var l := level;
      if l == "" {
        if err.Some? { l := "error"; } else { l := "info"; }
      }
      assert l == ResolveLevel(err, level);
      ghost var d := Dispatch(palette, logLevel, verbose == Some(true), err, level, msg);
      if Rank(logLevel) >= Rank(l) {
        var dist := groupLogger[l];
        var term: Option<string>, file: string;
        if l == "notset" {
          term, file := if verbose.value then Some(msg) else None, msg;
        } else if err.Some? {
          term, file := if verbose.value then Some(msg + " [ " + palette.brown + err.value + palette.reset + " ]\n") else None,
                        msg + " [ " + err.value + " ]\n";
        } else {
          term, file := if verbose.value then Some(msg + "\n") else None, msg + "\n";
        }
        assert d == Deliver(l, term, file);
        Emit(dist, term, file);
      } else {
        assert d == Suppressed;
      }
    }
  }

  /** A caller that configures first and then alerts: after `Init`, every
      registered level may be alerted, and an alert the gate blocks needs no
      verbosity setting and leaves both sinks empty. */
  method ConfigureThenAlert(p: Palette, cfg: LogInit, err: Option<string>, level: string, msg: string)
    returns (term: seq<Line>, file: seq<Line>)
    requires Admits(cfg.logLevel, ResolveLevel(err, level)) ==> cfg.verbose.Some? && ResolveLevel(err, level) in LogLevels
    ensures var d := Dispatch(p, cfg.logLevel, cfg.verbose == Some(true), err, level, msg);
      term == Outputs(d, LoggerTable(p, cfg.hasFile), Stdout)
      && file == Outputs(d, LoggerTable(p, cfg.hasFile), LogFile)
  {
    var log := new LogState(p);
    log.Init(cfg);
    log.Alert(err, level, msg);
    term, file := log.termLog, log.fileLog;
  }
}
