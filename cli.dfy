/** The command-line controller of htmldate: the safeguard gate in front of
    the date-extraction engine (`examine`) and the single-item and batch
    paths of `process_args`. The network fetcher and the engine are not part
    of this model and appear as uninterpreted functions. */
module Cli {
  import opened Wrappers
  import opened PyStr

  // ---------------------------------------------------------------------
  // Collaborators and settings
  // ---------------------------------------------------------------------

  /** The keyword arguments `find_date` receives. */
  datatype EngineOptions = EngineOptions(
    extensiveSearch: bool,
    originalDate: bool,
    verbose: bool,
    minDate: Option<string>,
    maxDate: Option<string>)

  /** The defaults of `examine`'s keyword parameters. */
  const DefaultOptions := EngineOptions(true, false, false, None, None)

  /** `fetch_url` (download a page, `None` when there is nothing) and
      `find_date` (the date heuristics, `None` when no date is found). */
  datatype Collaborators = Collaborators(
    fetchUrl: string -> Option<string>,
    findDate: (string, EngineOptions) -> Option<string>)

  /** `MIN_FILE_SIZE` and `MAX_FILE_SIZE` of the settings module. */
  datatype Settings = Settings(minFileSize: nat, maxFileSize: nat)

  // ---------------------------------------------------------------------
  // The safeguard gate: examine
  // ---------------------------------------------------------------------

  const EmptyDocumentMessage := "# ERROR: empty document\n"
  const TooLargeMessage := "# ERROR: file too large\n"
  const TooSmallMessage := "# ERROR: file too small\n"

  /** The three diagnostics `examine` can write. */
  predicate GateMessage(m: string) {
    m == EmptyDocumentMessage || m == TooLargeMessage || m == TooSmallMessage
  }

  /** What one call of `examine` returns and writes to standard error. */
  datatype GateOutcome = GateOutcome(result: Option<string>, stderr: seq<string>)

  /** A length the gate lets through: both bounds are inclusive. */
  predicate Admissible(settings: Settings, n: nat) {
    settings.minFileSize <= n <= settings.maxFileSize
  }

  /** `examine`: absent, too large and too small documents are rejected in
      that order with one diagnostic each; any other document goes to the
      engine and its answer is returned as it is. */
  function Examine(html: Option<string>, opts: EngineOptions, settings: Settings,
                   findDate: (string, EngineOptions) -> Option<string>): (g: GateOutcome)
    ensures |g.stderr| <= 1
    ensures g.stderr != [] ==> GateMessage(g.stderr[0])
    ensures g.stderr == [] <==> html.Some? && Admissible(settings, |html.value|)
    ensures g.stderr == [] ==> g.result == findDate(html.value, opts)
    ensures g.stderr != [] ==> g.result == None
  {
    if html.None? then GateOutcome(None, [EmptyDocumentMessage])
    else if |html.value| > settings.maxFileSize then GateOutcome(None, [TooLargeMessage])
    else if |html.value| < settings.minFileSize then GateOutcome(None, [TooSmallMessage])
    else GateOutcome(findDate(html.value, opts), [])
  }

  /** An absent document gets the "empty document" diagnostic and never a size diagnostic. */
  lemma AbsentDocumentRejected(opts: EngineOptions, settings: Settings,
                               findDate: (string, EngineOptions) -> Option<string>)
    ensures Examine(None, opts, settings, findDate) == GateOutcome(None, [EmptyDocumentMessage])
  {
  }

  /** The upper bound is checked before the lower one: an oversized document is
      reported as too large even when the bounds are such that it is also too small. */
  lemma OversizeCheckedFirst(doc: string, opts: EngineOptions, settings: Settings,
                             findDate: (string, EngineOptions) -> Option<string>)
    requires |doc| > settings.maxFileSize
    ensures Examine(Some(doc), opts, settings, findDate) == GateOutcome(None, [TooLargeMessage])
  {
  }

  lemma UndersizeRejected(doc: string, opts: EngineOptions, settings: Settings,
                          findDate: (string, EngineOptions) -> Option<string>)
    requires |doc| < settings.minFileSize && |doc| <= settings.maxFileSize
    ensures Examine(Some(doc), opts, settings, findDate) == GateOutcome(None, [TooSmallMessage])
  {
  }

  /** A rejected document never reaches the engine: the outcome is the same
      whatever the engine would have answered. */
  lemma RejectionIgnoresEngine(html: Option<string>, opts: EngineOptions, settings: Settings,
                               f1: (string, EngineOptions) -> Option<string>,
                               f2: (string, EngineOptions) -> Option<string>)
    requires !(html.Some? && Admissible(settings, |html.value|))
    ensures Examine(html, opts, settings, f1) == Examine(html, opts, settings, f2)
  {
  }

  // ---------------------------------------------------------------------
  // Command-line arguments and the observable run
  // ---------------------------------------------------------------------

  /** The parsed arguments `process_args` reads. `fast` holds `True` unless
      `-f` was given (it is a `store_false` flag) and is passed as the
      extensive-search switch. */
  datatype Args = Args(
    fast: bool,
    inputFile: Option<string>,
    original: bool,
    minDate: Option<string>,
    maxDate: Option<string>,
    url: Option<string>,
    verbose: bool)

  /** Python truthiness of an optional string argument: the falsy values are
      `None` and the empty string. */
  predicate Given(arg: Option<string>)
    ensures !Given(arg) <==> arg == None || arg == Some("")
  {
    arg.Some? && arg.value != ""
  }

  /** How the run ends: normally, through `sys.exit(message)`, or by an
      exception nobody catches. */
  datatype Status = Completed | Exit(message: string) | Raised(error: string)

  function ExitCode(status: Status): (code: int)
    ensures code == 0 <==> status == Completed
  {
    if status == Completed then 0 else 1
  }

  /** What the run writes to standard output and standard error, and how it ends. */
  datatype Run = Run(stdout: seq<string>, stderr: seq<string>, status: Status)

  // ---------------------------------------------------------------------
  // Single-item mode
  // ---------------------------------------------------------------------

  function UrlErrorMessage(url: string): string {
    "# ERROR no valid result for url: " + url + "\n"
  }

  function EncodingErrorMessage(error: string): string {
    "# ERROR system/buffer encoding: " + error + "\n"
  }

  /** Single mode calls `examine` without `mindate`, which stays at its
      default; every other option is the one batch mode passes. */
  function SingleOptions(args: Args): (opts: EngineOptions)
    ensures opts.minDate == DefaultOptions.minDate == None
    ensures opts == BatchOptions(args.(minDate := None))
  {
    DefaultOptions.(extensiveSearch := args.fast, originalDate := args.original,
                    verbose := args.verbose, maxDate := args.maxDate)
  }

  /** The document of the single-item path, or the message the run exits with.
      `stdin` is what reading standard input gave: the text, or the text of
      the decoding error. */
  function AcquireSingle(args: Args, stdin: Result<string, string>,
                         fetchUrl: string -> Option<string>): (doc: Result<string, string>)
    ensures Given(args.url) ==> (doc.Failure? <==> fetchUrl(args.url.value).None?)
    ensures Given(args.url) && doc.Failure? ==> doc.error == UrlErrorMessage(args.url.value)
    ensures Given(args.url) && doc.Success? ==> Some(doc.value) == fetchUrl(args.url.value)
    ensures !Given(args.url) ==> (doc.Failure? <==> stdin.Failure?)
    ensures !Given(args.url) && doc.Failure? ==> doc.error == EncodingErrorMessage(stdin.error)
    ensures !Given(args.url) && doc.Success? ==> doc.value == stdin.value
  {
    if Given(args.url) then
      match fetchUrl(args.url.value)
      case None => Failure(UrlErrorMessage(args.url.value))
      case Some(html) => Success(html)
    else
      match stdin
      case Failure(error) => Failure(EncodingErrorMessage(error))
      case Success(text) => Success(text)
  }

  /** The single-item branch of `process_args`. */
  function SingleRun(args: Args, stdin: Result<string, string>, env: Collaborators,
                     settings: Settings): (run: Run)
    ensures run.status == Completed || run.status.Exit?
    ensures run.status.Exit? ==> run.stdout == [] && run.stderr == []
    ensures |run.stdout| <= 1 && |run.stderr| <= 1
    ensures run.stdout != [] ==> run.stderr == [] && |run.stdout[0]| >= 1
                                 && run.stdout[0][|run.stdout[0]| - 1] == '\n'
  {
    match AcquireSingle(args, stdin, env.fetchUrl)
    case Failure(message) => Run([], [], Exit(message))
    case Success(html) =>
      var g := Examine(Some(html), SingleOptions(args), settings, env.findDate);
      Run(if g.result.Some? then [g.result.value + "\n"] else [], g.stderr, Completed)
  }

  /** A URL that cannot be fetched ends the run with exit code 1 and the URL
      in the message, before anything is written. */
  lemma UnfetchableUrlIsFatal(args: Args, stdin: Result<string, string>, env: Collaborators,
                              settings: Settings)
    requires Given(args.url) && env.fetchUrl(args.url.value).None?
    ensures SingleRun(args, stdin, env, settings) == Run([], [], Exit(UrlErrorMessage(args.url.value)))
    ensures ExitCode(SingleRun(args, stdin, env, settings).status) == 1
  {
  }

  /** Undecodable standard input ends the run with exit code 1. */
  lemma UndecodableStdinIsFatal(args: Args, error: string, env: Collaborators, settings: Settings)
    requires !Given(args.url)
    ensures SingleRun(args, Failure(error), env, settings) == Run([], [], Exit(EncodingErrorMessage(error)))
    ensures ExitCode(SingleRun(args, Failure(error), env, settings).status) == 1
  {
  }

  /** With a URL given, standard input is never consulted, not even when the fetch fails. */
  lemma UrlNeverFallsBackToStdin(args: Args, s1: Result<string, string>, s2: Result<string, string>,
                                 env: Collaborators, settings: Settings)
    requires Given(args.url)
    ensures SingleRun(args, s1, env, settings) == SingleRun(args, s2, env, settings)
  {
  }

  /** Once a document is acquired the run completes with exit code 0; standard
      output gets the date and a newline when the gate yields one, and nothing
      otherwise; standard error gets the gate's diagnostic. */
  lemma SingleWritesOnlyTheDate(args: Args, stdin: Result<string, string>, env: Collaborators,
                                settings: Settings)
    requires AcquireSingle(args, stdin, env.fetchUrl).Success?
    ensures var html := AcquireSingle(args, stdin, env.fetchUrl).value;
            var g := Examine(Some(html), SingleOptions(args), settings, env.findDate);
            var run := SingleRun(args, stdin, env, settings);
            && ExitCode(run.status) == 0
            && (run.stdout == [] <==> g.result.None?)
            && (g.result.Some? ==> run.stdout == [g.result.value + "\n"])
            && run.stderr == g.stderr
  {
  }

  /** `--mindate` has no effect in single mode. */
  lemma SingleIgnoresMinDate(args: Args, minDate: Option<string>, stdin: Result<string, string>,
                             env: Collaborators, settings: Settings)
    ensures SingleRun(args.(minDate := minDate), stdin, env, settings) == SingleRun(args, stdin, env, settings)
  {
  }

  /** Text read from standard input is never absent, so the single path
      reading it never reports an empty document: an empty input is reported
      as too small instead (when the lower bound is positive). */
  lemma StdinNeverEmptyDocument(args: Args, text: string, env: Collaborators, settings: Settings)
    requires !Given(args.url)
    ensures EmptyDocumentMessage !in SingleRun(args, Success(text), env, settings).stderr
    ensures text == [] && settings.minFileSize > 0 ==>
              SingleRun(args, Success(text), env, settings) == Run([], [TooSmallMessage], Completed)
  {
  }

  // ---------------------------------------------------------------------
  // Batch mode
  // ---------------------------------------------------------------------

  /** Batch mode passes the search, priority and verbosity flags and both
      date bounds to the engine as they were given. */
  function BatchOptions(args: Args): (opts: EngineOptions)
    ensures opts.extensiveSearch == args.fast && opts.originalDate == args.original
    ensures opts.verbose == args.verbose
    ensures opts.minDate == args.minDate && opts.maxDate == args.maxDate
  {
    EngineOptions(args.fast, args.original, args.verbose, args.minDate, args.maxDate)
  }

  /** The input file as the line iterator delivers it: the lines it yields
      (each with its line terminator, if any) and, when iteration stopped on
      an exception (the file could not be opened or decoded), that error. */
  datatype InputFile = InputFile(lines: seq<string>, error: Option<string>)

  /** What one batch line goes through: the stripped line is fetched and the
      fetched document is examined. */
  function BatchItem(line: string, opts: EngineOptions, settings: Settings,
                     env: Collaborators): (g: GateOutcome)
    ensures |g.stderr| <= 1
    ensures env.fetchUrl(Strip(line)).None? ==> g == GateOutcome(None, [EmptyDocumentMessage])
    ensures g.result.Some? ==> env.fetchUrl(Strip(line)).Some?
                               && g.result == env.findDate(env.fetchUrl(Strip(line)).value, opts)
    ensures (env.fetchUrl(Strip(line)).Some? && Admissible(settings, |env.fetchUrl(Strip(line)).value|))
              ==> g == GateOutcome(env.findDate(env.fetchUrl(Strip(line)).value, opts), [])
    ensures (env.fetchUrl(Strip(line)).Some? && !Admissible(settings, |env.fetchUrl(Strip(line)).value|))
              ==> g.result == None && |g.stderr| == 1
  {
    Examine(env.fetchUrl(Strip(line)), opts, settings, env.findDate)
  }

  /** The literal `None` stands for an absent result; any other text is a
      result the engine gave. */
  function Placeholder(result: Option<string>): (text: string)
    ensures result.Some? ==> text == result.value
    ensures result == None ==> text == "None"
    ensures text != "None" ==> result == Some(text)
  {
    match result
    case Some(date) => date
    case None => "None"
  }

  /** The record written for one line: the stripped line, a tab, the result
      and a newline. */
  function Record(line: string, result: Option<string>): (r: string)
    ensures |r| == |Strip(line)| + |Placeholder(result)| + 2
    ensures r[|Strip(line)|] == '\t' && r[|r| - 1] == '\n'
  {
    Strip(line) + "\t" + Placeholder(result) + "\n"
  }

  /** The parts of a record around the tab it puts after the line. */
  lemma RecordFields(line: string, result: Option<string>)
    ensures var r := Record(line, result);
            && r[..|Strip(line)|] == Strip(line)
            && r[|Strip(line)| + 1..|r| - 1] == Placeholder(result)
  {
  }

  /** A record can be read back by splitting at its first tab: when the
      stripped lines hold no tab, equal records come from equal stripped lines
      and equal result texts. */
  lemma RecordParsesBack(line1: string, result1: Option<string>,
                         line2: string, result2: Option<string>)
    requires '\t' !in Strip(line1) && '\t' !in Strip(line2)
    requires Record(line1, result1) == Record(line2, result2)
    ensures Strip(line1) == Strip(line2)
    ensures Placeholder(result1) == Placeholder(result2)
  {
    RecordFields(line1, result1);
    RecordFields(line2, result2);
  }

  /** Standard output after the batch loop has processed `lines`: one record
      per line. */
  function BatchStdout(lines: seq<string>, opts: EngineOptions, settings: Settings,
                       env: Collaborators): (out: seq<string>)
    ensures |out| == |lines|
  {
    if lines == [] then []
    else
      var last := lines[|lines| - 1];
      BatchStdout(lines[..|lines| - 1], opts, settings, env)
        + [Record(last, BatchItem(last, opts, settings, env).result)]
  }

  /** Standard error after the batch loop has processed `lines`: at most one
      diagnostic per line, each one of the gate's. */
  function BatchStderr(lines: seq<string>, opts: EngineOptions, settings: Settings,
                       env: Collaborators): (err: seq<string>)
    ensures |err| <= |lines|
    ensures forall i :: 0 <= i < |err| ==> GateMessage(err[i])
  {
    if lines == [] then []
    else
      var before := BatchStderr(lines[..|lines| - 1], opts, settings, env);
      var diag := BatchItem(lines[|lines| - 1], opts, settings, env).stderr;
      assert forall i :: |before| <= i < |before + diag| ==> (before + diag)[i] == diag[0];
      before + diag
  }

  /** Record `i` of the batch output carries line `i`, stripped, and that
      line's result or the placeholder. */
  lemma {:induction false} RecordAt(lines: seq<string>, i: nat, opts: EngineOptions,
                                    settings: Settings, env: Collaborators)
    requires i < |lines|
    ensures |BatchStdout(lines, opts, settings, env)| == |lines|
    ensures BatchStdout(lines, opts, settings, env)[i]
              == Record(lines[i], BatchItem(lines[i], opts, settings, env).result)
  {
    var init := lines[..|lines| - 1];
    if i < |init| {
      RecordAt(init, i, opts, settings, env);
      assert init[i] == lines[i];
    }
  }

  /** One record per line, in input order, blank lines included. */
  lemma OneRecordPerLine(lines: seq<string>, opts: EngineOptions,
                         settings: Settings, env: Collaborators)
    ensures |BatchStdout(lines, opts, settings, env)| == |lines|
    ensures forall i :: 0 <= i < |lines| ==>
              BatchStdout(lines, opts, settings, env)[i]
                == Record(lines[i], BatchItem(lines[i], opts, settings, env).result)
  {
    forall i | 0 <= i < |lines|
      ensures BatchStdout(lines, opts, settings, env)[i]
                == Record(lines[i], BatchItem(lines[i], opts, settings, env).result)
    {
      RecordAt(lines, i, opts, settings, env);
    }
  }

  /** Lines are processed independently: the output for a file is the output
      for its first part followed by the output for the rest, so no line's
      failure affects the records of the lines after it. */
  lemma {:induction false} BatchIsolatesLines(a: seq<string>, b: seq<string>, opts: EngineOptions,
                                              settings: Settings, env: Collaborators)
    ensures BatchStdout(a + b, opts, settings, env)
              == BatchStdout(a, opts, settings, env) + BatchStdout(b, opts, settings, env)
  {
    if b == [] {
      assert a + b == a;
    } else {
      var b', last := b[..|b| - 1], b[|b| - 1];
      var rec := [Record(last, BatchItem(last, opts, settings, env).result)];
      assert (a + b)[..|a + b| - 1] == a + b';
      assert (a + b)[|a + b| - 1] == last;
      assert BatchStdout(a + b, opts, settings, env) == BatchStdout(a + b', opts, settings, env) + rec;
      BatchIsolatesLines(a, b', opts, settings, env);
      assert BatchStdout(b, opts, settings, env) == BatchStdout(b', opts, settings, env) + rec;
    }
  }

  /** The same independence for the diagnostics on standard error. */
  lemma {:induction false} BatchIsolatesDiagnostics(a: seq<string>, b: seq<string>, opts: EngineOptions,
                                                    settings: Settings, env: Collaborators)
    ensures BatchStderr(a + b, opts, settings, env)
              == BatchStderr(a, opts, settings, env) + BatchStderr(b, opts, settings, env)
  {
    if b == [] {
      assert a + b == a;
    } else {
      var b', last := b[..|b| - 1], b[|b| - 1];
      var diag := BatchItem(last, opts, settings, env).stderr;
      assert (a + b)[..|a + b| - 1] == a + b';
      assert (a + b)[|a + b| - 1] == last;
      assert BatchStderr(a + b, opts, settings, env) == BatchStderr(a + b', opts, settings, env) + diag;
      BatchIsolatesDiagnostics(a, b', opts, settings, env);
      assert BatchStderr(b, opts, settings, env) == BatchStderr(b', opts, settings, env) + diag;
    }
  }

  /** A line whose fetch fails gets the placeholder record and the
      "empty document" diagnostic. */
  lemma FetchFailureGivesPlaceholder(line: string, opts: EngineOptions, settings: Settings,
                                     env: Collaborators)
    requires env.fetchUrl(Strip(line)).None?
    ensures BatchItem(line, opts, settings, env) == GateOutcome(None, [EmptyDocumentMessage])
    ensures Record(line, BatchItem(line, opts, settings, env).result) == Strip(line) + "\tNone\n"
  {
  }

  /** A line whose fetched page the gate rejects as too large or too small
      gets that diagnostic and the placeholder record. */
  lemma GateRejectionGivesPlaceholder(line: string, html: string, opts: EngineOptions,
                                      settings: Settings, env: Collaborators)
    requires env.fetchUrl(Strip(line)) == Some(html) && !Admissible(settings, |html|)
    ensures BatchItem(line, opts, settings, env)
              == GateOutcome(None, [if |html| > settings.maxFileSize then TooLargeMessage
                                    else TooSmallMessage])
    ensures Record(line, BatchItem(line, opts, settings, env).result) == Strip(line) + "\tNone\n"
  {
  }

  /** With one fetcher giving the same page for the URL to both paths and no
      `--mindate`, a batch line and a single `-u` run ask the engine the same
      question: the batch record carries the date the single run prints. */
  lemma BatchAgreesWithSingle(args: Args, line: string, stdin: Result<string, string>,
                              env: Collaborators, settings: Settings)
    requires args.url == Some(Strip(line)) && Strip(line) != "" && args.minDate == None
    requires env.fetchUrl(Strip(line)).Some?
    ensures var r := BatchItem(line, BatchOptions(args), settings, env).result;
            SingleRun(args, stdin, env, settings).stdout
              == if r.Some? then [r.value + "\n"] else []
  {
  }

  /** A batch line whose fetched document passes the gate gets the engine's
      answer for exactly the options given on the command line, both date
      bounds included. */
  lemma BatchForwardsAllOptions(args: Args, line: string, html: string, env: Collaborators,
                                settings: Settings)
    requires env.fetchUrl(Strip(line)) == Some(html) && Admissible(settings, |html|)
    ensures BatchItem(line, BatchOptions(args), settings, env).result
              == env.findDate(html, EngineOptions(args.fast, args.original, args.verbose,
                                                  args.minDate, args.maxDate))
  {
  }

  /** Two URL lines, the first with a dated page and the second unreachable:
      the output has one record each, in order, the second with the
      placeholder. */
  lemma {:induction false} TwoUrlExample(args: Args, u1: string, u2: string, doc: string, date: string,
                                         env: Collaborators, settings: Settings)
    requires Trimmed(u1) && Trimmed(u2)
    requires env.fetchUrl(u1) == Some(doc) && Admissible(settings, |doc|)
    requires env.findDate(doc, BatchOptions(args)) == Some(date)
    requires env.fetchUrl(u2) == None
    ensures BatchStdout([u1 + "\n", u2 + "\n"], BatchOptions(args), settings, env)
              == [u1 + "\t" + date + "\n", u2 + "\tNone\n"]
  {
    var lines := [u1 + "\n", u2 + "\n"];
    var opts := BatchOptions(args);
    StripDropsTerminator(u1);
    StripDropsTerminator(u2);
    assert BatchStdout(lines[..1], opts, settings, env) == [u1 + "\t" + date + "\n"] by {
      assert lines[..1] == [lines[0]];
      assert [lines[0]][..0] == [];
    }
    assert Record(lines[1], None) == u2 + "\tNone\n";
  }

  // ---------------------------------------------------------------------
  // process_args
  // ---------------------------------------------------------------------

  /** `process_args`: without an input file, the single-item path; with one,
      the lines are processed in order, one record each, and the run ends
      normally at the end of the file or with the error that stopped the
      iteration. */
  method ProcessArgs(args: Args, stdin: Result<string, string>, inputFile: InputFile,
                     env: Collaborators, settings: Settings) returns (run: Run)
    ensures !Given(args.inputFile) ==> run == SingleRun(args, stdin, env, settings)
    ensures Given(args.inputFile) ==>
              && |run.stdout| == |inputFile.lines|
              && (forall i :: 0 <= i < |inputFile.lines| ==>
                    run.stdout[i] == Record(inputFile.lines[i],
                                            BatchItem(inputFile.lines[i], BatchOptions(args), settings, env).result))
              && run.stderr == BatchStderr(inputFile.lines, BatchOptions(args), settings, env)
              && run.status == if inputFile.error.Some? then Raised(inputFile.error.value) else Completed
  {
    if !Given(args.inputFile) {
      return SingleRun(args, stdin, env, settings);
    }
    var opts := BatchOptions(args);
    var lines := inputFile.lines;
    var stdout: seq<string> := [];
    var stderr: seq<string> := [];
    for i := 0 to |lines|
      invariant stdout == BatchStdout(lines[..i], opts, settings, env)
      invariant stderr == BatchStderr(lines[..i], opts, settings, env)
    {
      var line := lines[i];
      var htmltext := env.fetchUrl(Strip(line));
      var gate := Examine(htmltext, opts, settings, env.findDate);
      var result := if gate.result.None? then "None" else gate.result.value;
      stderr := stderr + gate.stderr;
      stdout := stdout + [Strip(line) + "\t" + result + "\n"];
      assert lines[..i + 1][..i] == lines[..i];
    }
    assert lines[..|lines|] == lines;
    OneRecordPerLine(lines, opts, settings, env);
    var status := if inputFile.error.Some? then Raised(inputFile.error.value) else Completed;
    run := Run(stdout, stderr, status);
  }
}
