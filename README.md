# htmldate command line, modelled in Dafny

htmldate finds the publication date of a web page. Its command-line
controller (`htmldate/cli.py`) takes one page, from a URL (`-u`) or from
standard input, or a batch file of URLs (`-i`). It checks each page against
size bounds and passes the pages that pass to the date-extraction engine.
It then writes the date, or in batch mode one `url<TAB>date-or-None` record
per line.

This project models that controller:

- `wrappers.dfy`: `Option` and `Result`. Python's `None` becomes `None`.
  `Failure` carries an error text: the text of a decoding error, or the
  message a run exits with.
- `pystr.dfy`: Python's `str.strip()`. It removes the characters
  `str.isspace()` accepts at both ends. The batch loop applies it to every
  line.
- `cli.dfy` models `examine`, the safeguard gate, as the function
  `Cli.Examine`. The single-item path of `process_args` is the function
  `Cli.SingleRun`. The whole of `process_args` is the method
  `Cli.ProcessArgs`, and its batch loop builds standard output and standard
  error step by step. The loop's invariant ties them to the functions
  `Cli.BatchStdout` and `Cli.BatchStderr` of the lines processed so far.

The model treats `fetch_url` and `find_date` as uninterpreted functions,
the two fields of `Cli.Collaborators`. `MIN_FILE_SIZE` and `MAX_FILE_SIZE`
are parameters (`Cli.Settings`), because the settings module is not part of
this model. Nothing requires `MIN_FILE_SIZE <= MAX_FILE_SIZE`, because the
gate is well defined without it. A run is a value, `Cli.Run`, holding:

- the strings `cli.py` itself writes to standard output;
- the strings `cli.py` itself writes to standard error (its diagnostics);
- how the run ended: normally, by `sys.exit(message)` (exit code 1), or by
  an uncaught exception.

The model follows the code in these places, where a reading of the tool's
intent might suggest otherwise:

- Both size bounds are inclusive on the accepting side. A document whose
  length equals `MIN_FILE_SIZE` or `MAX_FILE_SIZE` goes to the engine.
- Batch mode does not skip blank lines. Each line, blank or not, is fetched
  (after stripping) and gets a record.
- A batch record starts with the stripped line, not the original one.
- Text read from standard input is never `None`. So an empty standard input
  gets the "file too small" diagnostic, not "empty document". See
  `Cli.StdinNeverEmptyDocument`.
- The messages passed to `sys.exit` end in a newline.
- An empty `-i` or `-u` argument counts as absent, because the code tests
  Python truthiness. See `Cli.Given`.

## Model

| member | source | states |
|---|---|---|
| `Cli.Examine` | htmldate/cli.py:19-33 | at most one diagnostic; no diagnostic exactly when the document is present and its length lies within both bounds (inclusive); then the engine's answer for the given options is returned unchanged, otherwise no result |
| `Cli.AbsentDocumentRejected` | htmldate/cli.py:23-24 | an absent document yields no result and exactly the "empty document" diagnostic, never a size diagnostic |
| `Cli.OversizeCheckedFirst` | htmldate/cli.py:25-28 | a document longer than `MAX_FILE_SIZE` yields exactly "file too large", even when it is also shorter than `MIN_FILE_SIZE` |
| `Cli.UndersizeRejected` | htmldate/cli.py:27-28 | a document shorter than `MIN_FILE_SIZE` and not over the maximum yields exactly "file too small" and no result |
| `Cli.RejectionIgnoresEngine` | htmldate/cli.py:22-33 | for a rejected document the outcome is the same whatever the engine would answer: the engine is not consulted |
| `PyStr.Strip` | htmldate/cli.py:95 | the stripped line has no whitespace at either end and is no longer than the line |
| `PyStr.StripDropsSpace` | htmldate/cli.py:95 | the stripped line is a contiguous part of the line, and everything removed before and after it is whitespace |
| `PyStr.StripCharacterized` | htmldate/cli.py:95 | a string with no whitespace at its ends, surrounded by any whitespace, strips to exactly itself |
| `PyStr.StripDropsTerminator` | htmldate/cli.py:95 | a line read with its newline strips to its content when that content has no whitespace at its ends |
| `PyStr.StripIdempotent` | htmldate/cli.py:95 | a property of the strip applied to each line: stripping its result again changes nothing |
| `Cli.ExitCode` | htmldate/cli.py:76-77 | the exit code is 0 exactly for a run that completes; `sys.exit` with a message and an uncaught exception give a non-zero code |
| `Cli.AcquireSingle` | htmldate/cli.py:72-83 | with a URL given, the document is the fetched page, or the URL error message when the fetch yields nothing; otherwise it is the text of standard input, or the encoding error message when decoding failed |
| `Cli.SingleRun` | htmldate/cli.py:72-89 | the single path either completes or exits; an exiting run writes nothing; at most one line goes to standard output, ending in a newline, and then none of the controller's own diagnostics goes to standard error |
| `Cli.UnfetchableUrlIsFatal` | htmldate/cli.py:74-77 | a URL whose fetch yields nothing ends the run with `# ERROR no valid result for url: <url>` and exit code 1, with nothing written |
| `Cli.UndecodableStdinIsFatal` | htmldate/cli.py:79-83 | undecodable standard input ends the run with `# ERROR system/buffer encoding: <error>` and exit code 1 |
| `Cli.UrlNeverFallsBackToStdin` | htmldate/cli.py:74-83 | with a URL given, the run does not depend on standard input, even when the fetch fails |
| `Cli.SingleWritesOnlyTheDate` | htmldate/cli.py:84-89 | once a document is acquired the run exits with 0; standard output is `date + "\n"` when the gate yields a date and empty otherwise; standard error holds the gate's diagnostic |
| `Cli.SingleIgnoresMinDate` | htmldate/cli.py:84-87 | the single path never passes `--mindate`: changing it does not change the run |
| `Cli.StdinNeverEmptyDocument` | htmldate/cli.py:79-84 | the standard-input path never reports an empty document; an empty input with a positive lower bound is reported as too small and completes with no output |
| `Cli.Given` | htmldate/cli.py:72-74 | an optional argument counts as given unless it is absent or the empty string, Python's falsy values for it |
| `Cli.SingleOptions` | htmldate/cli.py:84-87 | the single path passes the batch path's options except `mindate`, which stays at its default `None` |
| `Cli.BatchOptions` | htmldate/cli.py:96-99 | the batch path passes `fast`, `original`, `verbose`, `mindate` and `maxdate` unchanged |
| `Cli.BatchItem` | htmldate/cli.py:95-99 | one line's outcome: at most one diagnostic; an unfetchable stripped line gives no result and the "empty document" diagnostic; a result only ever comes from the engine on the fetched page; an admissible fetched page gets the engine's answer and no diagnostic; a fetched page the gate rejects gives no result and exactly one diagnostic |
| `Cli.Placeholder` | htmldate/cli.py:100-101 | an absent result is written as the literal `None`; a present one as itself; any text other than `None` is a result the engine gave |
| `Cli.Record` | htmldate/cli.py:102 | the record is the stripped line, a tab, the result text and a newline: its length is their sum, the tab sits right after the line, the newline at the end |
| `Cli.RecordFields` | htmldate/cli.py:102 | the part of a record before the tab is the stripped line, and the part between the tab and the newline is the result text |
| `Cli.RecordParsesBack` | htmldate/cli.py:102 | a record reads back by splitting at its first tab: when the stripped lines hold no tab, equal records come from equal stripped lines and equal result texts |
| `Cli.BatchStdout` | htmldate/cli.py:94-102 | reference definition of the loop's standard output: it has exactly one record per line |
| `Cli.BatchStderr` | htmldate/cli.py:94-99 | reference definition of the loop's standard error: at most one diagnostic per line, each one of the gate's three |
| `Cli.RecordAt` | htmldate/cli.py:94-102 | record `i` of the batch output is `strip(line_i) + "\t" + (result_i or "None") + "\n"` |
| `Cli.OneRecordPerLine` | htmldate/cli.py:94-102 | one record per line, blank lines included, in input order, each carrying its own line's result or the placeholder |
| `Cli.BatchIsolatesLines` | htmldate/cli.py:94-102 | the output for `a + b` is the output for `a` followed by the output for `b`: a failing line never affects the lines after it |
| `Cli.BatchIsolatesDiagnostics` | htmldate/cli.py:94-99 | the same for standard error: diagnostics of `a + b` are those of `a` followed by those of `b` |
| `Cli.FetchFailureGivesPlaceholder` | htmldate/cli.py:95-102 | a line whose fetch yields nothing gets the "empty document" diagnostic and the record `strip(line) + "\tNone\n"` |
| `Cli.GateRejectionGivesPlaceholder` | htmldate/cli.py:95-102 | a line whose fetched page is too large or too small gets exactly that diagnostic and the record `strip(line) + "\tNone\n"` |
| `Cli.BatchForwardsAllOptions` | htmldate/cli.py:96-99 | a batch line whose page passes the gate gets the engine's answer for all the command-line options, both date bounds included |
| `Cli.BatchAgreesWithSingle` | htmldate/cli.py:84-99 | without `--mindate`, given the same fetched page for the URL, a batch line and a `-u` run ask the engine the same question: the single run prints exactly the batch record's result |
| `Cli.TwoUrlExample` | htmldate/cli.py:93-102 | a file whose first URL line has a dated page and whose second is unreachable gives `url1 + "\t" + date + "\n"` then `url2 + "\tNone\n"` |
| `Cli.ProcessArgs` | htmldate/cli.py:70-102 | without an input file the run is the single path; with one, the output holds one record per line in order (record `i` as above), standard error holds the lines' diagnostics in order, and the run completes, or ends with the exception that stopped the iteration |

## Left out

- `parse_args` and `--version` (htmldate/cli.py:36-67) are a thin layer over `argparse`. The model starts from the parsed arguments, `Cli.Args`.
- `main` (htmldate/cli.py:105-114) only chains `parse_args` and `process_args`.
- What `fetch_url` and `find_date` do is not part of this model. They are uninterpreted functions, so every property holds for any fetcher and engine that returns a value. A collaborator that raises is not modelled: in batch mode such an exception would stop the loop uncaught, and `Cli.BatchIsolatesLines` does not cover that case.
- `Cli.Run`'s `stdout` and `stderr` hold only what `cli.py` writes itself. The collaborators are taken to return without writing anything; in particular, whatever `find_date` prints when `-v` (forwarded at htmldate/cli.py:86 and 98) asks it to is not modelled, so `Cli.SingleRun`'s and `Cli.BatchStderr`'s bounds on standard error speak of the controller's own diagnostics only.
- `fetch_url` and `find_date` are fixed functions of their arguments in this model: a URL yields the same page every time it is fetched, within one run and across runs. The network does not guarantee that, so `Cli.BatchAgreesWithSingle` speaks of a single fetched page shared by both paths.
- A date equal to the text `None` would be written like an absent result. `Cli.RecordParsesBack` therefore recovers the result text, not the result itself.
- The values of `MIN_FILE_SIZE` and `MAX_FILE_SIZE` are not part of this model. They are parameters.
- Opening the batch file, decoding it as UTF-8 and turning it into lines (newline translation, buffering) are I/O. The file is given as the lines its iterator yields, plus the error that stopped the iteration, if any (`Cli.InputFile`). Which lines come before such an error depends on buffering, so it is an input of the model.
- Reading standard input is I/O. It is given as a `Result`: the text, or the text of the `UnicodeDecodeError`.
- Real streams and process exit are not modelled. Writes are sequences of strings in `Cli.Run`. `sys.exit(message)` is the status `Exit(message)`, whose exit code is 1. The message that Python prints to standard error is kept in the status and not appended to `stderr`.
- The interleaving of standard output and standard error is not modelled. Each stream is kept in order on its own.
- Python strings may hold lone surrogate code points, and Dafny's `char` cannot. Lengths are otherwise the same, since both count code points.
