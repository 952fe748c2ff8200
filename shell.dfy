/**
 * Running commands through the shell and driving the external `dialog`
 * program: where a child's standard output and standard error go
 * (`ShellExec`, `Dialog`), the trimmed captured result, and the command lines
 * of the dialog boxes. Launching processes is not modelled: what a child
 * prints and how it exits are parameters.
 */
module Shell {
  import opened Wrappers
  import opened Text
  import opened Levels
  import Logger

  /** The places a child's output stream can be connected to: the in-memory
      capture buffer, the log file, the parent's standard error and standard
      output, and the write end of the progress-box pipe. */
  datatype Sink = Buffer | FileSink | Stderr | Stdout | Pipe

  /** Which sinks receive the child's standard output and standard error. */
  datatype Routing = Routing(stdout: set<Sink>, stderr: set<Sink>)

  /** `TttySize`: columns `x` and rows `y` (Go `int`s). */
  datatype TtySize = TtySize(x: int, y: int)

  /** `TLogShell`: the shell to run commands with, and the terminal size. */
  datatype LogShell = LogShell(shell: string, ttySize: TtySize)

  /** How a finished child behaved: what it wrote to standard output and its
      exit error (launch failure or non-zero status), if any. */
  datatype Outcome = Outcome(stdout: string, err: Option<string>)

  /** What `ShellExec` did: the argument vector it ran, the routing of the
      child's streams, and the values it returns. */
  datatype ShellResult = ShellResult(argv: seq<string>, routing: Routing, output: string, err: Option<string>)

  /** What `Dialog` did: the primary command's argument vector and routing,
      the progress-box viewer it started (if any), and the error it returns. */
  datatype DialogRun = DialogRun(argv: seq<string>, routing: Routing, viewer: Option<seq<string>>, err: Option<string>)

  // ---------------------------------------------------------------------
  // ShellExec

  /** The stream wiring of `ShellExec`. */
  function ShellRouting(verbose: bool, hasFile: bool): (r: Routing)
    ensures Buffer in r.stdout && Buffer !in r.stderr
    ensures Pipe !in r.stdout && Pipe !in r.stderr && Stdout !in r.stdout + r.stderr
  {
    if hasFile then
      Routing({Buffer, FileSink}, if verbose then {Stderr, FileSink} else {FileSink})
    else
      Routing({Buffer}, if verbose then {Stderr} else {})
  }

  /** Standard output is always captured, and also teed to the log file when
      one is open; standard error reaches the terminal exactly when verbose
      and the log file exactly when one is open. Nothing goes to a pipe. */
  lemma ShellRoutingRule(verbose: bool, hasFile: bool, s: Sink)
    ensures var r := ShellRouting(verbose, hasFile);
      && (s in r.stdout <==> s == Buffer || (s == FileSink && hasFile))
      && (s in r.stderr <==> (s == Stderr && verbose) || (s == FileSink && hasFile))
  {
  }

  /** `ShellExec`: run `shell -c command` and return the captured standard
      output without its surrounding white space, and the child's error. */
  function ShellExec(sh: LogShell, verbose: bool, hasFile: bool, command: string, run: Outcome): (r: ShellResult)
    ensures r.argv == [sh.shell, "-c", command] && r.err == run.err
    ensures r.routing == ShellRouting(verbose, hasFile)
    ensures r.output == TrimSpace(run.stdout) && Trimmed(r.output) && |r.output| <= |run.stdout|
  {
    ShellResult([sh.shell, "-c", command], ShellRouting(verbose, hasFile), TrimSpace(run.stdout), run.err)
  }

  /** Whatever white space surrounds the child's output, the returned string
      is the output between it. */
  lemma ShellExecOutput(sh: LogShell, verbose: bool, hasFile: bool, command: string,
                        pre: string, mid: string, post: string, err: Option<string>)
    requires AllSpace(pre) && AllSpace(post) && Trimmed(mid)
    ensures ShellExec(sh, verbose, hasFile, command, Outcome(pre + mid + post, err)).output == mid
  {
    TrimSpaceUnique(pre, mid, post);
  }

  /** `echo hello` prints "hello\n"; ShellExec returns "hello". */
  lemma EchoHello(sh: LogShell, verbose: bool, hasFile: bool)
    ensures ShellExec(sh, verbose, hasFile, "echo hello", Outcome("hello\n", None)).output == "hello"
  {
    ShellExecOutput(sh, verbose, hasFile, "echo hello", "", "hello", "\n", None);
    assert "" + "hello" + "\n" == "hello\n";
  }

  // ---------------------------------------------------------------------
  // Dialog and DialogExec

  /** The stream wiring of `Dialog`'s primary command. */
  function DialogRouting(verbose: bool, hasFile: bool): (r: Routing)
    ensures Buffer !in r.stdout + r.stderr
    ensures Pipe in r.stdout <==> !verbose
  {
    if hasFile then
      if verbose then Routing({Stdout, FileSink}, {Stderr, FileSink})
      else Routing({Pipe, FileSink}, {FileSink})
    else
      if verbose then Routing({Stdout}, {Stderr})
      else Routing({Pipe}, {Pipe})
  }

  /** `Dialog`: start the primary command; when not verbose, also start a
      progress-box viewer reading the pipe. Returns the primary's error. */
  function Dialog(sh: LogShell, verbose: bool, hasFile: bool, command: string, backTitle: string,
                  title: string, textBox: string, typeBox: string, run: Option<string>): (r: DialogRun)
    ensures r.argv == [sh.shell, "-c", command] && r.err == run
    ensures r.routing == DialogRouting(verbose, hasFile)
    ensures r.viewer.Some? <==> !verbose
    ensures !verbose ==> r.viewer == Some([sh.shell, "-c", ViewerCommand(sh, backTitle, title, typeBox, textBox)])
  {
    DialogRun([sh.shell, "-c", command], DialogRouting(verbose, hasFile),
              if verbose then None else Some([sh.shell, "-c", ViewerCommand(sh, backTitle, title, typeBox, textBox)]),
              run)
  }

  /** The routing rule of `Dialog`: when verbose, the streams go to the
      terminal (and the log file when open); when not, standard output goes
      into the pipe (and the log file), while standard error goes only to the
      log file when one is open but into the pipe when none is. The pipe is
      written exactly when a viewer is started to read it. */
  lemma DialogRoutingRule(sh: LogShell, verbose: bool, hasFile: bool, command: string, backTitle: string,
                          title: string, textBox: string, typeBox: string, run: Option<string>, s: Sink)
    ensures var r := Dialog(sh, verbose, hasFile, command, backTitle, title, textBox, typeBox, run).routing;
      && (s in r.stdout <==> (s == Stdout && verbose) || (s == Pipe && !verbose) || (s == FileSink && hasFile))
      && (s in r.stderr <==> (s == Stderr && verbose) || (s == Pipe && !verbose && !hasFile) || (s == FileSink && hasFile))
    ensures var d := Dialog(sh, verbose, hasFile, command, backTitle, title, textBox, typeBox, run);
      (Pipe in d.routing.stdout || Pipe in d.routing.stderr) <==> d.viewer.Some?
  {
  }

  /** `Dialog` wires standard error as `ShellExec` does, except with neither
      verbosity nor a log file, where `ShellExec` drops it and `Dialog` sends
      it into the pipe. */
  lemma DialogStderrAgainstShellExec(verbose: bool, hasFile: bool)
    ensures (DialogRouting(verbose, hasFile).stderr == ShellRouting(verbose, hasFile).stderr) <==> (verbose || hasFile)
  {
    if !verbose && !hasFile {
      assert Pipe in DialogRouting(verbose, hasFile).stderr;
    }
  }

  /** `DialogExec`: `Dialog` with an empty title and a progress box. */
  function DialogExec(sh: LogShell, verbose: bool, hasFile: bool, command: string, backTitle: string,
                      textBox: string, run: Option<string>): (r: DialogRun)
    ensures r.viewer.Some? <==> !verbose
  {
    Dialog(sh, verbose, hasFile, command, backTitle, "", textBox, "progressbox", run)
  }

  // ---------------------------------------------------------------------
  // Command lines

  /** One argument of a command line: a bare word, or a word in double quotes. */
  datatype Arg = Word(w: string) | Quoted(w: string)

  function ArgText(a: Arg): string {
    match a
    case Word(w) => w
    case Quoted(w) => "\"" + w + "\""
  }

  /** The arguments written out with one space between each two, which is
      what a `Sprintf` format of the form `a "%s" %d ...` produces. */
  function Render(args: seq<Arg>): string {
    if |args| == 0 then ""
    else if |args| == 1 then ArgText(args[0])
    else ArgText(args[0]) + " " + Render(args[1..])
  }

  /** The words the arguments stand for. */
  function Values(args: seq<Arg>): (vs: seq<string>)
    ensures |vs| == |args| && forall i :: 0 <= i < |args| ==> vs[i] == args[i].w
  {
    seq(|args|, i requires 0 <= i < |args| => args[i].w)
  }

  /** `dialog ... --<typeBox> "text" rows cols`: the progress-box viewer of `Dialog`. */
  function ViewerCommand(sh: LogShell, backTitle: string, title: string, typeBox: string, textBox: string): string {
    Render([Word("dialog"), Word("--stdout"), Word("--backtitle"), Quoted(backTitle), Word("--title"), Quoted(title),
            Word("--" + typeBox), Quoted(textBox), Word(IntToString(sh.ttySize.y)), Word(IntToString(sh.ttySize.x))])
  }

  /** The command line of `DialogInfo`. */
  function InfoCommand(sh: LogShell, backTitle: string, title: string, textBox: string): string {
    Render([Word("dialog"), Word("--stdout"), Word("--backtitle"), Quoted(backTitle), Word("--title"), Quoted(title),
            Word("--infobox"), Quoted(textBox), Word(IntToString(sh.ttySize.y)), Word(IntToString(sh.ttySize.x))])
  }

  /** The command line of `DialogYesNo`. */
  function YesNoCommand(sh: LogShell, backTitle: string, textBox: string): string {
    Render([Word("dialog"), Word("--stdout"), Word("--backtitle"), Quoted(backTitle),
            Word("--yesno"), Quoted(textBox), Word(IntToString(sh.ttySize.y)), Word(IntToString(sh.ttySize.x))])
  }

  /** The command line of `DialogMsgBox`. */
  function MsgBoxCommand(sh: LogShell, backTitle: string, title: string, textBox: string): string {
    Render([Word("dialog"), Word("--stdout"), Word("--backtitle"), Quoted(backTitle), Word("--title"), Quoted(title),
            Word("--msgbox"), Quoted(textBox), Word(IntToString(sh.ttySize.y)), Word(IntToString(sh.ttySize.x))])
  }

  /** The command line of `DialogCheckList`; `extField` (the items) is
      spliced in unquoted. */
  function CheckListCommand(sh: LogShell, backTitle: string, title: string, textBox: string, extField: string): string {
    Render([Word("dialog"), Word("--stdout"), Word("--title"), Quoted(title), Word("--backtitle"), Quoted(backTitle),
            Word("--no-tags"), Word("--checklist"), Quoted(textBox),
            Word(IntToString(sh.ttySize.y)), Word(IntToString(sh.ttySize.x)), Word("0")]) + " " + extField
  }

  /** The command line of `DialogInputBox`; `extField` (the initial value) is
      spliced in unquoted. */
  function InputBoxCommand(sh: LogShell, backTitle: string, title: string, textBox: string, extField: string): string {
    Render([Word("dialog"), Word("--stdout"), Word("--title"), Quoted(title), Word("--backtitle"), Quoted(backTitle),
            Word("--no-tags"), Word("--inputbox"), Quoted(textBox),
            Word(IntToString(sh.ttySize.y)), Word(IntToString(sh.ttySize.x))]) + " " + extField
  }

  /** `DialogInfo`: run the info box through `ShellExec`. Go returns only
      `r.err` and discards the captured output. */
  function DialogInfo(sh: LogShell, verbose: bool, hasFile: bool, backTitle: string, title: string,
                      textBox: string, run: Outcome): (r: ShellResult)
    ensures r.argv == [sh.shell, "-c", InfoCommand(sh, backTitle, title, textBox)]
    ensures r.routing == ShellRouting(verbose, hasFile) && r.err == run.err
  {
    ShellExec(sh, verbose, hasFile, InfoCommand(sh, backTitle, title, textBox), run)
  }

  /** `DialogYesNo`: run the yes/no box through `ShellExec`; the answer is
      the child's exit status, which Go returns as `r.err`. */
  function DialogYesNo(sh: LogShell, verbose: bool, hasFile: bool, backTitle: string,
                       textBox: string, run: Outcome): (r: ShellResult)
    ensures r.argv == [sh.shell, "-c", YesNoCommand(sh, backTitle, textBox)]
    ensures r.routing == ShellRouting(verbose, hasFile) && r.err == run.err
  {
    ShellExec(sh, verbose, hasFile, YesNoCommand(sh, backTitle, textBox), run)
  }

  /** `DialogCheckList`: the selected tags are what `dialog --stdout`
      prints, trimmed. */
  function DialogCheckList(sh: LogShell, verbose: bool, hasFile: bool, backTitle: string, title: string,
                           textBox: string, extField: string, run: Outcome): (r: ShellResult)
    ensures r.argv == [sh.shell, "-c", CheckListCommand(sh, backTitle, title, textBox, extField)]
    ensures r.routing == ShellRouting(verbose, hasFile) && r.err == run.err
    ensures r.output == TrimSpace(run.stdout)
  {
    ShellExec(sh, verbose, hasFile, CheckListCommand(sh, backTitle, title, textBox, extField), run)
  }

  /** `DialogInputBox`: the entered text is what `dialog --stdout` prints,
      trimmed. */
  function DialogInputBox(sh: LogShell, verbose: bool, hasFile: bool, backTitle: string, title: string,
                          textBox: string, extField: string, run: Outcome): (r: ShellResult)
    ensures r.argv == [sh.shell, "-c", InputBoxCommand(sh, backTitle, title, textBox, extField)]
    ensures r.routing == ShellRouting(verbose, hasFile) && r.err == run.err
    ensures r.output == TrimSpace(run.stdout)
  {
    ShellExec(sh, verbose, hasFile, InputBoxCommand(sh, backTitle, title, textBox, extField), run)
  }

  /** `DialogMsgBox`: log a debug record describing the shell (its `%v`
      rendering is the parameter `shellText`), then run the message box
      through `ShellExec`. Go returns only `r.err`. */
  method DialogMsgBox(log: Logger.LogState, sh: LogShell, backTitle: string, title: string, textBox: string,
                      shellText: string, run: Outcome) returns (r: ShellResult)
    requires log.verbose.Some?
    requires Admits(log.logLevel, "debug") ==> "debug" in log.groupLogger
    modifies log`termLog, log`fileLog
    ensures var d := Logger.Dispatch(log.palette, log.logLevel, log.verbose.value, None, "debug",
                                     "DialogMsgBox: " + shellText);
      && log.termLog == old(log.termLog) + Logger.Outputs(d, log.groupLogger, Logger.Stdout)
      && log.fileLog == old(log.fileLog) + Logger.Outputs(d, log.groupLogger, Logger.LogFile)
    ensures r == DialogMsgBoxRun(sh, log.verbose.value, log.hasFile, backTitle, title, textBox, run)
    ensures r.argv == [sh.shell, "-c", MsgBoxCommand(sh, backTitle, title, textBox)] && r.err == run.err
  {
    var command := MsgBoxCommand(sh, backTitle, title, textBox);
    log.Alert(None, "debug", "DialogMsgBox: " + shellText);
    r := ShellExec(sh, log.verbose.value, log.hasFile, command, run);
  }

  /** The `ShellExec` call `DialogMsgBox` makes. */
  function DialogMsgBoxRun(sh: LogShell, verbose: bool, hasFile: bool, backTitle: string, title: string,
                           textBox: string, run: Outcome): (r: ShellResult)
    ensures r.argv == [sh.shell, "-c", MsgBoxCommand(sh, backTitle, title, textBox)]
    ensures r.routing == ShellRouting(verbose, hasFile) && r.err == run.err
  {
    ShellExec(sh, verbose, hasFile, MsgBoxCommand(sh, backTitle, title, textBox), run)
  }

  // ---------------------------------------------------------------------
  // Reading a command line back into words

  /** A reference reading of a command line into words, as `sh -c` does for
      the characters these command lines use: spaces outside double quotes
      separate words, double quotes group and are removed, and an unclosed
      quote is an error. `cur` is the word being built, `inWord` whether one
      has started, `quoted` whether a quote is open. */
  function Split(s: string, cur: string, inWord: bool, quoted: bool): Option<seq<string>>
    decreases |s|
  {
    if s == [] then (if quoted then None else if inWord then Some([cur]) else Some([]))
    else if s[0] == '"' then Split(s[1..], cur, true, !quoted)
    else if s[0] == ' ' && !quoted then
      (if inWord then PrependAll([cur], Split(s[1..], "", false, false)) else Split(s[1..], "", false, false))
    else Split(s[1..], cur + [s[0]], true, quoted)
  }

  function Words(s: string): Option<seq<string>> {
    Split(s, "", false, false)
  }

  function PrependAll(ws: seq<string>, o: Option<seq<string>>): Option<seq<string>> {
    match o
    case None => None
    case Some(vs) => Some(ws + vs)
  }

  lemma PrependAllTwice(a: seq<string>, b: seq<string>, o: Option<seq<string>>)
    ensures PrependAll(a, PrependAll(b, o)) == PrependAll(a + b, o)
    ensures PrependAll([], o) == o
  {
    match o
    case None =>
    case Some(vs) =>
      assert a + (b + vs) == a + b + vs;
      assert [] + vs == vs;
  }

  /** A double-quoted text the shell reads literally: no quote, backslash,
      dollar sign or backquote inside. */
  predicate QuoteSafe(s: string) {
    '"' !in s && '\\' !in s && '$' !in s && '`' !in s
  }

  /** An argument the reading gives back unchanged: a non-empty bare word
      without spaces or quotes, or quoted text that is quote-safe. */
  predicate Literal(a: Arg) {
    match a
    case Word(w) => w != [] && ' ' !in w && '"' !in w
    case Quoted(w) => QuoteSafe(w)
  }

  predicate AllLiteral(args: seq<Arg>) {
    forall i :: 0 <= i < |args| ==> Literal(args[i])
  }

  lemma {:induction false} PlainScan(w: string, rest: string, cur: string, inWord: bool)
    requires ' ' !in w && '"' !in w
    ensures Split(w + rest, cur, inWord, false) == Split(rest, cur + w, inWord || w != [], false)
  {
    if w == [] {
      assert w + rest == rest && cur + w == cur;
    } else {
      assert (w + rest)[0] == w[0] && (w + rest)[1..] == w[1..] + rest;
      PlainScan(w[1..], rest, cur + [w[0]], true);
      assert cur + [w[0]] + w[1..] == cur + w;
    }
  }

  lemma {:induction false} QuotedScan(t: string, rest: string, cur: string)
    requires '"' !in t
    ensures Split(t + rest, cur, true, true) == Split(rest, cur + t, true, true)
  {
    if t == [] {
      assert t + rest == rest && cur + t == cur;
    } else {
      assert (t + rest)[0] == t[0] && (t + rest)[1..] == t[1..] + rest;
      QuotedScan(t[1..], rest, cur + [t[0]]);
      assert cur + [t[0]] + t[1..] == cur + t;
    }
  }

  /** Reading one literal argument at the start of a word. */
  lemma ArgScan(a: Arg, rest: string)
    requires Literal(a)
    ensures Split(ArgText(a) + rest, "", false, false) == Split(rest, a.w, true, false)
  {
    match a
    case Word(w) =>
      PlainScan(w, rest, "", false);
      assert "" + w == w;
    case Quoted(t) =>
      var s := ArgText(a) + rest;
      assert s[0] == '"' && s[1..] == t + ("\"" + rest);
      QuotedScan(t, "\"" + rest, "");
      assert ("\"" + rest)[1..] == rest;
      assert "" + t == t;
  }

  /** Reading rendered arguments gives back their words; the last one is
      still open, for whatever follows it. */
  lemma {:induction false} RenderScan(args: seq<Arg>, rest: string)
    requires |args| >= 1 && AllLiteral(args)
    ensures Split(Render(args) + rest, "", false, false)
            == PrependAll(Values(args[..|args| - 1]), Split(rest, args[|args| - 1].w, true, false))
  {
    if |args| == 1 {
      ArgScan(args[0], rest);
      assert Values(args[..0]) == [];
      PrependAllTwice([], [], Split(rest, args[0].w, true, false));
    } else {
      var n := |args|;
      var open := Split(rest, args[n - 1].w, true, false);
      calc {
        Split(Render(args) + rest, "", false, false);
      == { RenderCons(args, rest); }
        PrependAll([args[0].w], Split(Render(args[1..]) + rest, "", false, false));
      == { RenderScan(args[1..], rest);
           assert args[1..][..n - 2] == args[1..n - 1];
           assert args[1..][n - 2] == args[n - 1]; }
        PrependAll([args[0].w], PrependAll(Values(args[1..n - 1]), open));
      == { PrependAllTwice([args[0].w], Values(args[1..n - 1]), open); }
        PrependAll([args[0].w] + Values(args[1..n - 1]), open);
      == { assert Values(args[..n - 1]) == [args[0].w] + Values(args[1..n - 1]); }
        PrependAll(Values(args[..n - 1]), open);
      }
    }
  }

  /** Reading the first of several rendered arguments. */
  lemma RenderCons(args: seq<Arg>, rest: string)
    requires |args| >= 2 && Literal(args[0])
    ensures Split(Render(args) + rest, "", false, false)
            == PrependAll([args[0].w], Split(Render(args[1..]) + rest, "", false, false))
  {
    var tail := Render(args[1..]) + rest;
    assert Render(args) + rest == ArgText(args[0]) + (" " + tail);
    ArgScan(args[0], " " + tail);
    assert (" " + tail)[0] == ' ' && (" " + tail)[1..] == tail;
  }

  lemma SpaceEndsWord(w: string, field: string)
    ensures Split(" " + field, w, true, false) == PrependAll([w], Words(field))
  {
    assert (" " + field)[0] == ' ' && (" " + field)[1..] == field;
  }

  lemma ValuesSnoc(args: seq<Arg>)
    requires |args| >= 1
    ensures Values(args[..|args| - 1]) + [args[|args| - 1].w] == Values(args)
  {
  }

  /** A command line built only from literal arguments reads back as exactly
      their words. */
  lemma WordsOfRender(args: seq<Arg>)
    requires |args| >= 1 && AllLiteral(args)
    ensures Words(Render(args)) == Some(Values(args))
  {
    var n := |args|;
    RenderScan(args, "");
    ValuesSnoc(args);
    LastWordEnds(Render(args), Values(args[..n - 1]), args[n - 1].w, Values(args));
  }

  /** The end of the line closes the word still open. */
  lemma LastWordEnds(line: string, init: seq<string>, last: string, all: seq<string>)
    requires Split(line + "", "", false, false) == PrependAll(init, Split("", last, true, false))
    requires init + [last] == all
    ensures Words(line) == Some(all)
  {
    assert line + "" == line;
  }

  /** With a raw field after the literal arguments, the field's own words
      follow theirs. */
  lemma WordsOfRenderThen(args: seq<Arg>, field: string)
    requires |args| >= 1 && AllLiteral(args)
    ensures Words(Render(args) + " " + field) == PrependAll(Values(args), Words(field))
  {
    var n := |args|;
    RenderScan(args, " " + field);
    ValuesSnoc(args);
    SpaceEndsLastWord(Render(args), field, Values(args[..n - 1]), args[n - 1].w, Values(args));
  }

  /** A space after the line closes the word still open, and the field's
      words follow. */
  lemma SpaceEndsLastWord(line: string, field: string, init: seq<string>, last: string, all: seq<string>)
    requires Split(line + (" " + field), "", false, false) == PrependAll(init, Split(" " + field, last, true, false))
    requires init + [last] == all
    ensures Words(line + " " + field) == PrependAll(all, Words(field))
  {
    assert line + " " + field == line + (" " + field);
    SpaceEndsWord(last, field);
    PrependAllTwice(init, [last], Words(field));
  }

  /** The `%d` rendering of a terminal dimension is a bare word. */
  lemma DimensionIsWord(n: int)
    ensures Literal(Word(IntToString(n)))
  {
    var r := IntToString(n);
    assert forall c :: c in r ==> c == '-' || IsDigit(c);
  }

  /** Rows (`TTYsize.Y`) stand at position `i` and columns (`TTYsize.X`) at
      `i + 1`, both reading back as the numbers they render. */
  predicate RowsThenCols(argv: seq<string>, i: nat, tty: TtySize) {
    i + 1 < |argv| && ParseInt(argv[i]) == Some(tty.y) && ParseInt(argv[i + 1]) == Some(tty.x)
  }

  lemma DimensionsReadBack(tty: TtySize)
    ensures ParseInt(IntToString(tty.y)) == Some(tty.y) && ParseInt(IntToString(tty.x)) == Some(tty.x)
  {
    IntToStringRoundTrip(tty.y);
    IntToStringRoundTrip(tty.x);
  }

  /** The fixed words of the dialog command lines are bare words. */
  lemma FlagsAreWords()
    ensures Literal(Word("dialog")) && Literal(Word("--stdout")) && Literal(Word("--backtitle"))
    ensures Literal(Word("--title")) && Literal(Word("--no-tags")) && Literal(Word("0"))
  {
  }

  lemma BoxFlagsAreWords()
    ensures Literal(Word("--infobox")) && Literal(Word("--yesno")) && Literal(Word("--msgbox"))
    ensures Literal(Word("--checklist")) && Literal(Word("--inputbox"))
  {
  }

  /** The progress-box viewer of `Dialog` runs `dialog` with the titles and
      text as single words, the box type as `--<typeBox>`, rows before
      columns. */
  lemma ViewerCommandWords(sh: LogShell, backTitle: string, title: string, typeBox: string, textBox: string)
    requires QuoteSafe(backTitle) && QuoteSafe(title) && QuoteSafe(textBox)
    requires ' ' !in typeBox && '"' !in typeBox
    ensures var argv := ["dialog", "--stdout", "--backtitle", backTitle, "--title", title, "--" + typeBox, textBox,
                         IntToString(sh.ttySize.y), IntToString(sh.ttySize.x)];
      Words(ViewerCommand(sh, backTitle, title, typeBox, textBox)) == Some(argv) && RowsThenCols(argv, 8, sh.ttySize)
  {
    FlagsAreWords();
    DimensionIsWord(sh.ttySize.y);
    DimensionIsWord(sh.ttySize.x);
    assert ' ' !in "--" + typeBox && '"' !in "--" + typeBox;
    var args := [Word("dialog"), Word("--stdout"), Word("--backtitle"), Quoted(backTitle), Word("--title"), Quoted(title),
                 Word("--" + typeBox), Quoted(textBox), Word(IntToString(sh.ttySize.y)), Word(IntToString(sh.ttySize.x))];
    assert AllLiteral(args);
    assert Values(args) == ["dialog", "--stdout", "--backtitle", backTitle, "--title", title, "--" + typeBox, textBox,
                             IntToString(sh.ttySize.y), IntToString(sh.ttySize.x)];
    WordsOfRender(args);
    DimensionsReadBack(sh.ttySize);
  }

  /** `DialogExec` without verbosity starts the viewer as
      `sh -c 'dialog ... --title "" --progressbox "text" rows cols'`. */
  lemma DialogExecViewer(sh: LogShell, hasFile: bool, command: string, backTitle: string,
                         textBox: string, run: Option<string>)
    requires QuoteSafe(backTitle) && QuoteSafe(textBox)
    ensures var r := DialogExec(sh, false, hasFile, command, backTitle, textBox, run);
      && r.viewer.Some? && |r.viewer.value| == 3 && r.viewer.value[..2] == [sh.shell, "-c"]
      && Words(r.viewer.value[2]) == Some(["dialog", "--stdout", "--backtitle", backTitle, "--title", "", "--progressbox",
                                            textBox, IntToString(sh.ttySize.y), IntToString(sh.ttySize.x)])
  {
    assert "--" + "progressbox" == "--progressbox";
    ViewerCommandWords(sh, backTitle, "", "progressbox", textBox);
  }

  /** The info box runs `dialog` with the titles and text as single words,
      rows before columns. */
  lemma InfoCommandWords(sh: LogShell, backTitle: string, title: string, textBox: string)
    requires QuoteSafe(backTitle) && QuoteSafe(title) && QuoteSafe(textBox)
    ensures var argv := ["dialog", "--stdout", "--backtitle", backTitle, "--title", title, "--infobox", textBox,
                         IntToString(sh.ttySize.y), IntToString(sh.ttySize.x)];
      Words(InfoCommand(sh, backTitle, title, textBox)) == Some(argv) && RowsThenCols(argv, 8, sh.ttySize)
  {
    FlagsAreWords();
    BoxFlagsAreWords();
    DimensionIsWord(sh.ttySize.y);
    DimensionIsWord(sh.ttySize.x);
    var args := [Word("dialog"), Word("--stdout"), Word("--backtitle"), Quoted(backTitle), Word("--title"), Quoted(title),
                 Word("--infobox"), Quoted(textBox), Word(IntToString(sh.ttySize.y)), Word(IntToString(sh.ttySize.x))];
    assert AllLiteral(args);
    assert Values(args) == ["dialog", "--stdout", "--backtitle", backTitle, "--title", title, "--infobox", textBox,
                             IntToString(sh.ttySize.y), IntToString(sh.ttySize.x)];
    WordsOfRender(args);
    DimensionsReadBack(sh.ttySize);
  }

  /** The yes/no box: no title, rows before columns. */
  lemma YesNoCommandWords(sh: LogShell, backTitle: string, textBox: string)
    requires QuoteSafe(backTitle) && QuoteSafe(textBox)
    ensures var argv := ["dialog", "--stdout", "--backtitle", backTitle, "--yesno", textBox,
                         IntToString(sh.ttySize.y), IntToString(sh.ttySize.x)];
      Words(YesNoCommand(sh, backTitle, textBox)) == Some(argv) && RowsThenCols(argv, 6, sh.ttySize)
  {
    FlagsAreWords();
    BoxFlagsAreWords();
    DimensionIsWord(sh.ttySize.y);
    DimensionIsWord(sh.ttySize.x);
    var args := [Word("dialog"), Word("--stdout"), Word("--backtitle"), Quoted(backTitle),
                 Word("--yesno"), Quoted(textBox), Word(IntToString(sh.ttySize.y)), Word(IntToString(sh.ttySize.x))];
    assert AllLiteral(args);
    assert Values(args) == ["dialog", "--stdout", "--backtitle", backTitle, "--yesno", textBox,
                             IntToString(sh.ttySize.y), IntToString(sh.ttySize.x)];
    WordsOfRender(args);
    DimensionsReadBack(sh.ttySize);
  }

  /** The message box, shaped like the info box. */
  lemma MsgBoxCommandWords(sh: LogShell, backTitle: string, title: string, textBox: string)
    requires QuoteSafe(backTitle) && QuoteSafe(title) && QuoteSafe(textBox)
    ensures var argv := ["dialog", "--stdout", "--backtitle", backTitle, "--title", title, "--msgbox", textBox,
                         IntToString(sh.ttySize.y), IntToString(sh.ttySize.x)];
      Words(MsgBoxCommand(sh, backTitle, title, textBox)) == Some(argv) && RowsThenCols(argv, 8, sh.ttySize)
  {
    FlagsAreWords();
    BoxFlagsAreWords();
    DimensionIsWord(sh.ttySize.y);
    DimensionIsWord(sh.ttySize.x);
    var args := [Word("dialog"), Word("--stdout"), Word("--backtitle"), Quoted(backTitle), Word("--title"), Quoted(title),
                 Word("--msgbox"), Quoted(textBox), Word(IntToString(sh.ttySize.y)), Word(IntToString(sh.ttySize.x))];
    assert AllLiteral(args);
    assert Values(args) == ["dialog", "--stdout", "--backtitle", backTitle, "--title", title, "--msgbox", textBox,
                             IntToString(sh.ttySize.y), IntToString(sh.ttySize.x)];
    WordsOfRender(args);
    DimensionsReadBack(sh.ttySize);
  }

  /** The check list: title before back title, rows before columns, a zero
      list height, then the shell's own reading of the items. */
  lemma CheckListCommandWords(sh: LogShell, backTitle: string, title: string, textBox: string, extField: string)
    requires QuoteSafe(backTitle) && QuoteSafe(title) && QuoteSafe(textBox)
    ensures var argv := ["dialog", "--stdout", "--title", title, "--backtitle", backTitle, "--no-tags", "--checklist",
                         textBox, IntToString(sh.ttySize.y), IntToString(sh.ttySize.x), "0"];
      Words(CheckListCommand(sh, backTitle, title, textBox, extField)) == PrependAll(argv, Words(extField))
      && RowsThenCols(argv, 9, sh.ttySize)
  {
    FlagsAreWords();
    BoxFlagsAreWords();
    DimensionIsWord(sh.ttySize.y);
    DimensionIsWord(sh.ttySize.x);
    var args := [Word("dialog"), Word("--stdout"), Word("--title"), Quoted(title), Word("--backtitle"), Quoted(backTitle),
                 Word("--no-tags"), Word("--checklist"), Quoted(textBox),
                 Word(IntToString(sh.ttySize.y)), Word(IntToString(sh.ttySize.x)), Word("0")];
    assert AllLiteral(args);
    assert Values(args) == ["dialog", "--stdout", "--title", title, "--backtitle", backTitle, "--no-tags", "--checklist",
                             textBox, IntToString(sh.ttySize.y), IntToString(sh.ttySize.x), "0"];
    WordsOfRenderThen(args, extField);
    DimensionsReadBack(sh.ttySize);
  }

  /** The input box: like the check list without the list height. */
  lemma InputBoxCommandWords(sh: LogShell, backTitle: string, title: string, textBox: string, extField: string)
    requires QuoteSafe(backTitle) && QuoteSafe(title) && QuoteSafe(textBox)
    ensures var argv := ["dialog", "--stdout", "--title", title, "--backtitle", backTitle, "--no-tags", "--inputbox",
                         textBox, IntToString(sh.ttySize.y), IntToString(sh.ttySize.x)];
      Words(InputBoxCommand(sh, backTitle, title, textBox, extField)) == PrependAll(argv, Words(extField))
      && RowsThenCols(argv, 9, sh.ttySize)
  {
    FlagsAreWords();
    BoxFlagsAreWords();
    DimensionIsWord(sh.ttySize.y);
    DimensionIsWord(sh.ttySize.x);
    var args := [Word("dialog"), Word("--stdout"), Word("--title"), Quoted(title), Word("--backtitle"), Quoted(backTitle),
                 Word("--no-tags"), Word("--inputbox"), Quoted(textBox),
                 Word(IntToString(sh.ttySize.y)), Word(IntToString(sh.ttySize.x))];
    assert AllLiteral(args);
    assert Values(args) == ["dialog", "--stdout", "--title", title, "--backtitle", backTitle, "--no-tags", "--inputbox",
                             textBox, IntToString(sh.ttySize.y), IntToString(sh.ttySize.x)];
    WordsOfRenderThen(args, extField);
    DimensionsReadBack(sh.ttySize);
  }
}
