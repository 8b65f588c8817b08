# DocStyler document processing, modelled in Dafny

DocStyler styles a draft text after a style template. A Spring backend accepts the two uploads and
files a job under a fresh process id. It runs the job in the background and reports its status. When
the job has completed, it serves the result file.

To run a job, the backend stages the uploads in a directory of the job's own. It then locates the
Python worker script (`main.py`) and starts it with the two staged files and that directory. It reads
the worker's standard output line by line:

- `PROGRESS:` lines set the progress;
- `MESSAGE:` lines set the message;
- a `RESULT:` line completes the job with a result path.

Finally it reconciles the worker's exit code with what it has read. The worker:

- extracts style names from the template;
- marks the draft's lines as heading, section heading or body text;
- writes the styled document;
- reports its progress on standard output in that line protocol.

The project models these parts:

- the job record (`ProcessStatus`);
- the processing service (`DocumentProcessingService`);
- the REST controller's logic (`DocumentController`);
- the worker script (`python_agent/main.py`).

It proves properties of each part and of the two processes working together.

Modules, one per file:

- `wrappers.dfy`: `Option` and `Result`.
- `text.dfy` (`Text`): the Python string operations the worker uses (`split`, `strip`, `in`, `print`).
- `java_lang.dfy` (`JavaLang`): the Java library behaviour the backend relies on:
  - `int` narrowing and truncating division;
  - `Integer.parseInt` and `Integer.toString`;
  - `String.split`, `lastIndexOf`;
  - `BufferedReader.readLine`.
- `paths.dfy` (`Paths`): `java.io.File`, `java.nio.file.Paths`/`Path.resolve` and `os.path.join`, for Unix paths.
- `process_status.dfy` (`Model`):
  - the `ProcessStatus` class, with its two constructors and its setters;
  - `Record`, a snapshot of all its fields, used in contracts.
- `protocol.dfy` (`Protocol`): the read loop and the exit-code reconciliation as functions on records. They are
  the specification the imperative loop is proved against.
- `locator.dfy` (`Locator`): where the backend looks for the worker script.
- `service.dfy` (`Service`): the `DocumentProcessingService` class:
  - the job map;
  - the job run as a method with the read loop;
  - the lookups.
- `controller.dfy` (`Controller`): the `DocumentController` class.
- `agent.dfy` (`Agent`): the worker script. Style extraction and draft styling are loops, proved against
  recursive specifications. The script's run is a function of its arguments and of its filesystem.
- `end_to_end.dfy` (`EndToEnd`): what a job ends as, given what the worker does.

Parameters and representation:

- The filesystem, the worker process, the clock and the random UUID are parameters. Examples are a `Host`,
  a `WorkerRun`, a `FileStore`, an `Env`, `now` and `freshId`.
- Java `null` is `None`.
- The status string is a three-valued datatype, because the code only ever stores `"PROCESSING"`,
  `"COMPLETED"` and `"ERROR"`.

Where the code and the system's documented behaviour differ, the model follows the code:

- The progress a `PROGRESS:` line carries is stored as it is. Nothing clamps it to 0..100, and it can go down.
- A `PROGRESS:` line whose value does not parse is not ignored. The exception leaves the read loop and the job
  ends in `ERROR` (`Protocol.ThrowingLineAfterResult`).
- A `RESULT:` line does not end the loop. Later lines still change the progress and the message
  (`Protocol.LinesAfterResult`). A later `RESULT:` line replaces the result path
  (`Protocol.ResultPathOfLastResultLine`). A later malformed `PROGRESS:` line turns the completed job into `ERROR`.
- When the worker exits 0 without a `RESULT:` line, the job completes without a result path, so its result
  cannot be fetched (`EndToEnd.TestModeCompletesWithoutResult`).
- A status poll of a processing job takes the message index as the code computes it, `(int)` before `%`. From
  5000 * 2^31 ms on, that index can be negative; the list lookup then throws and the poll fails
  (`Controller.DocumentController.GetStatus`, and "## Findings").
- A result path holding a NUL character makes `Paths.get` throw, so the fetch fails with that exception's
  message (`Service.ResultOf`).
- The not-found message names two locations, not every location probed.
- The second fallback location is `<working directory>/python_agent/main.py`, not a sibling of the working
  directory. The absolute form of `"."` keeps its final `"."`, whose parent is the working directory itself
  (`Locator.SecondCandidateUnderWorkingDir`).

## Model

| member | source | states |
|---|---|---|
| Text.IndexOfChar | python_agent/main.py:44 | the index is the first occurrence of the separator, or the length when there is none |
| Text.IndexOfCharAfter | python_agent/main.py:44 | in a + sep + b with sep not in a, the first separator is right after a |
| Text.SplitOn | python_agent/main.py:44 | `str.split(sep)` always gives at least one piece |
| Text.SplitPiecesLackSep | python_agent/main.py:44 | no piece of a split contains the separator |
| Text.JoinSplit | python_agent/main.py:44 | joining the pieces of a split with the separator gives back the text |
| Text.SplitJoin | python_agent/main.py:114 | splitting a join of separator-free pieces gives back the pieces |
| Text.TrimStart | python_agent/main.py:45 | stripping the front never lengthens the text |
| Text.TrimStartShape | python_agent/main.py:45 | the front strip removes exactly a whitespace prefix and leaves no leading whitespace |
| Text.TrimEnd | python_agent/main.py:45 | stripping the end never lengthens the text |
| Text.TrimEndShape | python_agent/main.py:45 | the end strip removes exactly a whitespace suffix and leaves no trailing whitespace |
| Text.StripIsEmptyIff | python_agent/main.py:62 | a line strips to nothing exactly when every character of it is whitespace |
| Text.TrimStartIsSuffix | python_agent/main.py:45 | the front strip is a suffix of the text |
| Text.TrimEndIsPrefix | python_agent/main.py:45 | the end strip is a prefix of the text |
| Text.FindFrom | python_agent/main.py:46 | the search finds the first occurrence at or after the start, and reports none exactly when there is none |
| Text.ContainsSlice | python_agent/main.py:46 | a pattern found in a slice is found in the whole text |
| Text.StripIsSlice | python_agent/main.py:48 | a stripped text is a contiguous slice of the original |
| Text.StripKeepsAbsence | python_agent/main.py:48 | stripping cannot create an occurrence of the marker |
| Text.BeforeFirst | python_agent/main.py:48 | `split(pat)[0]` is a prefix that ends where the first occurrence starts and does not contain pat; it is all of the text when pat does not occur |
| Text.PrintedSplitLine | python_agent/main.py:164 | printing a line that holds a line break writes the same text as printing its two halves as two lines |
| JavaLang.ToInt | backend/src/main/java/com/docstyler/backend/controller/DocumentController.java:58 | the `(int)` cast gives the int congruent to the long modulo 2^32, and is the identity on ints |
| JavaLang.Div | backend/src/main/java/com/docstyler/backend/controller/DocumentController.java:58 | Java division truncates toward zero: the quotient times the divisor never exceeds the dividend in magnitude |
| JavaLang.Rem | backend/src/main/java/com/docstyler/backend/controller/DocumentController.java:58 | the remainder has the dividend's sign and is smaller than the divisor in magnitude |
| JavaLang.Digits | backend/src/main/java/com/docstyler/backend/service/DocumentProcessingService.java:139 | the decimal text of a number is digits only, with no leading zero |
| JavaLang.DigitsValueOfDigits | backend/src/main/java/com/docstyler/backend/service/DocumentProcessingService.java:119 | the digits of n denote n |
| JavaLang.ParseInt | backend/src/main/java/com/docstyler/backend/service/DocumentProcessingService.java:119 | a parsed value is an int; a failure carries the NumberFormatException message for the input; the empty string fails |
| JavaLang.ParseIntOfToString | backend/src/main/java/com/docstyler/backend/service/DocumentProcessingService.java:119 | parsing the text of any int gives the int back |
| JavaLang.ToStringShape | backend/src/main/java/com/docstyler/backend/service/DocumentProcessingService.java:119 | the text of an int is non-empty and has no colon, so it survives `split(":")` whole |
| JavaLang.DropTrailingEmpty | backend/src/main/java/com/docstyler/backend/service/DocumentProcessingService.java:119 | `String.split` drops exactly the trailing empty pieces |
| JavaLang.SplitTwo | backend/src/main/java/com/docstyler/backend/service/DocumentProcessingService.java:119 | splitting a + ":" + b, with neither containing a colon and b non-empty, gives [a, b] |
| JavaLang.Split | backend/src/main/java/com/docstyler/backend/service/DocumentProcessingService.java:119 | `String.split` with one separator character: the whole text when the character is absent; otherwise the separator-free pieces in order, with exactly the trailing empty pieces dropped |
| JavaLang.LastIndexOf | backend/src/main/java/com/docstyler/backend/controller/DocumentController.java:77 | the last index holding the character, or -1 when none does |
| JavaLang.LineEnd | backend/src/main/java/com/docstyler/backend/service/DocumentProcessingService.java:115 | the first line terminator, or the end of the text |
| JavaLang.ReadLines | backend/src/main/java/com/docstyler/backend/service/DocumentProcessingService.java:115 | `readLine` gives no lines exactly for empty output, and no line it gives contains a line break |
| JavaLang.ReadLinesOfPrinted | backend/src/main/java/com/docstyler/backend/service/DocumentProcessingService.java:111-115 | reading back line by line what `print` wrote gives the printed lines, when none contains a line break |
| Paths.CollapseSlashes | backend/src/main/java/com/docstyler/backend/service/DocumentProcessingService.java:75 | collapsing runs of '/' never lengthens the path and keeps its first character |
| Paths.Normalize | backend/src/main/java/com/docstyler/backend/service/DocumentProcessingService.java:75 | normalising keeps a path absolute exactly when it was absolute |
| Paths.CollapseNoLineBreak | backend/src/main/java/com/docstyler/backend/service/DocumentProcessingService.java:75 | collapsing slashes introduces no line break |
| Paths.NormalizeNoLineBreak | backend/src/main/java/com/docstyler/backend/service/DocumentProcessingService.java:75 | normalising introduces no line break |
| Paths.ConcatNoLineBreak | python_agent/main.py:164-166 | gluing two line-break-free strings gives a line-break-free string |
| Paths.PathsNoLineBreak | backend/src/main/java/com/docstyler/backend/service/DocumentProcessingService.java:85-86 | `Paths.get`, `Path.resolve` and `os.path.join` introduce no line break |
| Model.BlankRecord | backend/src/main/java/com/docstyler/backend/model/ProcessStatus.java:18-22 | a fresh record is PROCESSING at 0 with a start time, and is well formed |
| Model.NewRecord | backend/src/main/java/com/docstyler/backend/model/ProcessStatus.java:24-29 | the two-argument constructor's record adds the ids and the acceptance message, and is well formed |
| Model.ProcessStatus.Blank | backend/src/main/java/com/docstyler/backend/model/ProcessStatus.java:18-22 | the no-argument constructor's object holds exactly the blank record |
| Model.ProcessStatus.constructor | backend/src/main/java/com/docstyler/backend/model/ProcessStatus.java:24-29 | the two-argument constructor's object holds exactly the new record |
| Model.ProcessStatus.SetId | backend/src/main/java/com/docstyler/backend/model/ProcessStatus.java:8 | the setter changes that field and nothing else |
| Model.ProcessStatus.SetProcessId | backend/src/main/java/com/docstyler/backend/model/ProcessStatus.java:9 | the setter changes that field and nothing else |
| Model.ProcessStatus.SetStatus | backend/src/main/java/com/docstyler/backend/model/ProcessStatus.java:10 | the setter changes that field and nothing else |
| Model.ProcessStatus.SetProgress | backend/src/main/java/com/docstyler/backend/model/ProcessStatus.java:11 | the setter changes that field and nothing else |
| Model.ProcessStatus.SetMessage | backend/src/main/java/com/docstyler/backend/model/ProcessStatus.java:12 | the setter changes that field and nothing else |
| Model.ProcessStatus.SetUserId | backend/src/main/java/com/docstyler/backend/model/ProcessStatus.java:13 | the setter changes that field and nothing else |
| Model.ProcessStatus.SetStartTime | backend/src/main/java/com/docstyler/backend/model/ProcessStatus.java:14 | the setter changes that field and nothing else |
| Model.ProcessStatus.SetEndTime | backend/src/main/java/com/docstyler/backend/model/ProcessStatus.java:15 | the setter changes that field and nothing else |
| Model.ProcessStatus.SetResultFilePath | backend/src/main/java/com/docstyler/backend/model/ProcessStatus.java:16 | the setter changes that field and nothing else |
| Protocol.Interpret | backend/src/main/java/com/docstyler/backend/service/DocumentProcessingService.java:115-131 | the read loop only keeps the status or makes it COMPLETED, never touches the identity fields, and keeps the record invariant |
| Protocol.Abort | backend/src/main/java/com/docstyler/backend/service/DocumentProcessingService.java:151-155 | the catch block sets ERROR and the message "❌ Ошибка: " plus the cause, and changes nothing else |
| Protocol.Reconcile | backend/src/main/java/com/docstyler/backend/service/DocumentProcessingService.java:137-147 | a completed job is left as it is; otherwise a non-zero code gives ERROR with the code in the message, and 0 gives COMPLETED at 100 with the fallback message and no new result path |
| Protocol.AfterWorker | backend/src/main/java/com/docstyler/backend/service/DocumentProcessingService.java:111-155 | after the worker the job is never PROCESSING; the identity and the record invariant are kept |
| Protocol.ProgressValue | backend/src/main/java/com/docstyler/backend/service/DocumentProcessingService.java:119 | the value of a PROGRESS line is an int; a line without a second field fails with the index-out-of-bounds message for index 1, and an unparsable field with the NumberFormatException message for that field |
| Protocol.Completion | backend/src/main/java/com/docstyler/backend/service/DocumentProcessingService.java:123-129 | a RESULT line leaves the job COMPLETED at 100 with the completion message, the given path and the end time; the identity fields and the record invariant are kept |
| Protocol.Step | backend/src/main/java/com/docstyler/backend/service/DocumentProcessingService.java:118-130 | one line either throws, which only a PROGRESS line can, or keeps the identity and the invariant and leaves the status as it was or COMPLETED |
| Protocol.MessageLine | backend/src/main/java/com/docstyler/backend/service/DocumentProcessingService.java:121-122 | a MESSAGE line sets the message to the text after the prefix and nothing else |
| Protocol.ResultLine | backend/src/main/java/com/docstyler/backend/service/DocumentProcessingService.java:123-129 | a RESULT line sets the path, COMPLETED, 100, the end time and the completion message |
| Protocol.OtherLine | backend/src/main/java/com/docstyler/backend/service/DocumentProcessingService.java:118-130 | a line with none of the three prefixes leaves the record unchanged |
| Protocol.ProgressLine | backend/src/main/java/com/docstyler/backend/service/DocumentProcessingService.java:118-120 | a PROGRESS line carrying any int sets exactly that progress, with no clamping |
| Protocol.ProgressLineField | backend/src/main/java/com/docstyler/backend/service/DocumentProcessingService.java:119 | a PROGRESS line parses exactly when the text up to the next colon is an int, and then that int is its value |
| Protocol.InterpretAppend | backend/src/main/java/com/docstyler/backend/service/DocumentProcessingService.java:115-131 | reading a + b is reading a, then b from where a left the record; a throw in a ends the loop |
| Protocol.CompletedIffResultLine | backend/src/main/java/com/docstyler/backend/service/DocumentProcessingService.java:123-126 | for a job still processing, a drained loop completes it exactly when some line is a RESULT line |
| Protocol.ResultPathOfLastResultLine | backend/src/main/java/com/docstyler/backend/service/DocumentProcessingService.java:123-125 | the result path is the one named by the last RESULT line |
| Protocol.ThrowingLineAfterResult | backend/src/main/java/com/docstyler/backend/service/DocumentProcessingService.java:118-155 | a malformed PROGRESS line after RESULT ends the job in ERROR with the exception's message, keeping path and progress |
| Protocol.LinesAfterResult | backend/src/main/java/com/docstyler/backend/service/DocumentProcessingService.java:115-131 | PROGRESS and MESSAGE lines after RESULT still overwrite progress and message; the job stays COMPLETED |
| Locator.Candidates | backend/src/main/java/com/docstyler/backend/service/DocumentProcessingService.java:173-179 | there are exactly five fallback locations |
| Locator.FirstExisting | backend/src/main/java/com/docstyler/backend/service/DocumentProcessingService.java:181-187 | the index found is the first location that exists; none is found only when none exists |
| Locator.Locate | backend/src/main/java/com/docstyler/backend/service/DocumentProcessingService.java:158-194 | the configured location wins when it exists; an absolute one that does not exist fails at once; a relative one gives the first existing fallback, and fails exactly when none exists |
| Locator.SecondCandidateUnderWorkingDir | backend/src/main/java/com/docstyler/backend/service/DocumentProcessingService.java:170-175 | the second fallback is under the working directory, not under its parent |
| Locator.SecondUnder | backend/src/main/java/com/docstyler/backend/service/DocumentProcessingService.java:175 | the second fallback is the working directory followed by "/python_agent/main.py" |
| Locator.SiblingUnder | backend/src/main/java/com/docstyler/backend/service/DocumentProcessingService.java:175 | "python_agent/main.py" under a normalised directory is that directory plus "/" plus the name |
| Locator.NoDoubleSlashNormal | backend/src/main/java/com/docstyler/backend/service/DocumentProcessingService.java:176-178 | a path with no double slash and no trailing slash is already normal |
| Locator.UpOneNormal | backend/src/main/java/com/docstyler/backend/service/DocumentProcessingService.java:176 | the third fallback's path is the literal itself |
| Locator.UpTwoNormal | backend/src/main/java/com/docstyler/backend/service/DocumentProcessingService.java:177 | the fourth fallback's path is the literal itself |
| Locator.DeveloperNormal | backend/src/main/java/com/docstyler/backend/service/DocumentProcessingService.java:178 | the fifth fallback's path is the literal itself |
| Locator.SiblingNormal | backend/src/main/java/com/docstyler/backend/service/DocumentProcessingService.java:175 | "python_agent/main.py" is in normal form |
| Locator.ParentOfDotted | backend/src/main/java/com/docstyler/backend/service/DocumentProcessingService.java:170 | the parent of the absolute form of "." is the working directory |
| Locator.CollapseIdentity | backend/src/main/java/com/docstyler/backend/service/DocumentProcessingService.java:170 | collapsing a string with no double slash changes nothing |
| Locator.NormalizeDotted | backend/src/main/java/com/docstyler/backend/service/DocumentProcessingService.java:170 | a normalised directory plus "/." stays normalised |
| Locator.CollapseAppend | backend/src/main/java/com/docstyler/backend/service/DocumentProcessingService.java:170 | collapsing d + "/." collapses d and keeps "/." |
| Locator.NormalizedEnd | backend/src/main/java/com/docstyler/backend/service/DocumentProcessingService.java:170 | a normalised path other than "/" does not end in '/' |
| Service.StagedName | backend/src/main/java/com/docstyler/backend/service/DocumentProcessingService.java:79-83 | the original name is kept unless it is null or empty, when the default name is used |
| Service.Staged | backend/src/main/java/com/docstyler/backend/service/DocumentProcessingService.java:92-93 | staging sets progress 10 and the staged message, and nothing else |
| Service.RunJob | backend/src/main/java/com/docstyler/backend/service/DocumentProcessingService.java:67-156 | a run never ends PROCESSING and keeps identity and invariant; a staging failure is ERROR at the old progress, a locate failure ERROR at 10, each with its message |
| Service.ResultOf | backend/src/main/java/com/docstyler/backend/service/DocumentProcessingService.java:207-220 | the fetch succeeds exactly for a COMPLETED job with a NUL-free path whose file exists and reads; each guard fails with its own message, and a path with NUL fails with the "Nul character not allowed" message |
| Service.DocumentProcessingService.constructor | backend/src/main/java/com/docstyler/backend/service/DocumentProcessingService.java:27-37 | a new service has no jobs, the given configuration, and its invariant |
| Service.DocumentProcessingService.StartDocumentProcessing | backend/src/main/java/com/docstyler/backend/service/DocumentProcessingService.java:39-65 | the fresh id is filed with a new accepted record; every other job is unchanged; the invariant is kept |
| Service.DocumentProcessingService.Catch | backend/src/main/java/com/docstyler/backend/service/DocumentProcessingService.java:151-155 | the catch block leaves the record as Abort says |
| Service.DocumentProcessingService.ProcessDocumentsAsync | backend/src/main/java/com/docstyler/backend/service/DocumentProcessingService.java:67-156 | the job's record becomes RunJob of its old value; the command is the one CommandFor gives; other jobs are unchanged; the invariant is kept |
| Service.DocumentProcessingService.CommandFor | backend/src/main/java/com/docstyler/backend/service/DocumentProcessingService.java:74-106 | a command exists exactly when staging succeeded and the script was found: five words, the executable, the script's absolute path, the two staged files and the job directory, all absolute when the temporary directory is |
| Service.DocumentProcessingService.RunOn | backend/src/main/java/com/docstyler/backend/service/DocumentProcessingService.java:73-108 | the steps of the run, statement by statement, leave the record as RunJob says |
| Service.DocumentProcessingService.FollowWorker | backend/src/main/java/com/docstyler/backend/service/DocumentProcessingService.java:111-147 | the read loop and the reconciliation leave the record as AfterWorker says on the lines read |
| Service.DocumentProcessingService.FindPythonAgentFile | backend/src/main/java/com/docstyler/backend/service/DocumentProcessingService.java:158-194 | the probing method returns what Locate specifies |
| Service.DocumentProcessingService.Probe | backend/src/main/java/com/docstyler/backend/service/DocumentProcessingService.java:181-187 | the probe loop returns the first existing fallback, as FirstExisting specifies |
| Service.DocumentProcessingService.GetProcessStatus | backend/src/main/java/com/docstyler/backend/service/DocumentProcessingService.java:196-202 | the lookup succeeds exactly for a known id and gives that job's record; otherwise it fails with "❌ Process not found: " and the id |
| Service.DocumentProcessingService.GetProcessResult | backend/src/main/java/com/docstyler/backend/service/DocumentProcessingService.java:204-221 | an unknown id fails as the lookup does; otherwise the result is ResultOf on the job's current record |
| Controller.EffectiveUser | backend/src/main/java/com/docstyler/backend/controller/DocumentController.java:36 | the header's user when present, "anonymous" otherwise |
| Controller.RotationIndexAsWritten | backend/src/main/java/com/docstyler/backend/controller/DocumentController.java:58 | the code's index lies strictly between -7 and 7, and in 0..6 before the wrap |
| Controller.RotationIndexWrapsNegative | backend/src/main/java/com/docstyler/backend/controller/DocumentController.java:58 | at 10737418240000 ms the code's index is -2 |
| Controller.RotationIndex | backend/src/main/java/com/docstyler/backend/controller/DocumentController.java:58 | the intended index is always valid, and equals the code's before the wrap |
| Controller.LastSegment | backend/src/main/java/com/docstyler/backend/controller/DocumentController.java:77 | the text after the last '/' is the longest slash-free suffix, empty exactly when the path is empty or ends in '/' |
| Controller.DownloadFilename | backend/src/main/java/com/docstyler/backend/controller/DocumentController.java:72-79 | the download name is never empty: the default without a path, "result.txt" for an empty last segment, the segment otherwise |
| Controller.DocumentController.constructor | backend/src/main/java/com/docstyler/backend/controller/DocumentController.java:23 | the controller uses the given service |
| Controller.DocumentController.ProcessDocuments | backend/src/main/java/com/docstyler/backend/controller/DocumentController.java:30-41 | a submission files a fresh job for the effective user and answers with its accepted record |
| Controller.DocumentController.GetStatus | backend/src/main/java/com/docstyler/backend/controller/DocumentController.java:43-63 | a poll of a PROCESSING job replaces the message with the rotating one at the index the code computes; when that index is negative it fails with the out-of-bounds message and changes nothing; other jobs and statuses are left unchanged; an unknown id fails |
| Controller.DocumentController.GetResult | backend/src/main/java/com/docstyler/backend/controller/DocumentController.java:65-92 | a download exactly when the fetch succeeds, with the bytes, their count and the download name; otherwise a 404 with "Error: " and the failure's message |
| Agent.StyleOf | python_agent/main.py:45-49 | a line declares a style exactly when it strips to a non-empty text containing "---"; the style contains no "---" |
| Agent.Styles | python_agent/main.py:43-49 | there are never more styles than template lines |
| Agent.StyleHasNoMarker | python_agent/main.py:48 | no extracted style contains "---" |
| Agent.StylesAppend | python_agent/main.py:44-49 | the styles of a + b are those of a followed by those of b |
| Agent.StylesOfOne | python_agent/main.py:44-49 | a single line contributes exactly its own style, or nothing |
| Agent.ExtractStyles | python_agent/main.py:43-49 | the extraction loop returns the styles of the template's '\n'-split lines |
| Agent.StyledLine | python_agent/main.py:61-76 | a blank line gives only ""; a short first line gives "# " + line with the first style or its default; a section name gives "## " + line with the second style or its default; any other line is kept with the third style or its default; each is followed by "" |
| Agent.StyledLength | python_agent/main.py:61-76 | the output has one line per draft line plus two per non-blank line |
| Agent.StyledStartsWithFirst | python_agent/main.py:61-76 | the output for the first draft line comes first |
| Agent.DraftLines | python_agent/main.py:59 | the stripped draft splits into at least one line |
| Agent.FirstDraftLineNotBlank | python_agent/main.py:59 | unless the draft is blank, its first line is not blank |
| Agent.ShortFirstLineIsHeading | python_agent/main.py:64-67 | a first line shorter than 50 characters becomes "# " plus the line, tagged with the first style or "Times New Roman, 14pt" |
| Agent.StyleDraft | python_agent/main.py:58-76 | the styling loop returns the styled lines of the draft |
| Agent.MarkAndTag | python_agent/main.py:64-75 | the branches for a non-blank line produce exactly the first two lines StyledLine specifies |
| Agent.StyleLines | python_agent/main.py:61-76 | the loop over the draft lines appends exactly each line's styled output, in order |
| Agent.SaveRun | python_agent/main.py:84-139 | the saving stage returns 0 exactly when the directory, the document and the raw copy are all written, and then prints PROGRESS:100, the success message and the RESULT line; its code is 0 or 1 |
| Agent.ProcessRun | python_agent/main.py:15-139 | processing returns 0 exactly when both reads and all three writes succeed, and then prints exactly the success lines; it always starts with the starting lines |
| Agent.SaveFails | python_agent/main.py:137-139 | a failed document write prints the starting and stage lines, then the save error, and returns 1 |
| Agent.RawSaveFails | python_agent/main.py:126-139 | a failed raw-copy write comes after the RESULT line, and returns 1 |
| Agent.SuccessLines | python_agent/main.py:20-128 | a successful run prints the starting lines first and the RESULT line for the result path last |
| Agent.AgentRun | python_agent/main.py:141-179 | test mode exits 0; a wrong argument count exits 2; a missing input exits 1; exit 0 outside test mode means the intro and success lines were printed |
| Agent.ProcessDocuments | python_agent/main.py:15-139 | the processing method prints and returns what ProcessRun specifies, and produces the styled lines of the draft |
| Agent.SaveResult | python_agent/main.py:84-139 | the saving statements print and return what SaveRun specifies |
| Agent.RunScript | python_agent/main.py:141-179 | the script prints and exits as AgentRun specifies |
| EndToEnd.QuietStep | backend/src/main/java/com/docstyler/backend/service/DocumentProcessingService.java:118-130 | a well-formed PROGRESS line, or a line without "RESULT:", changes at most the progress and the message |
| EndToEnd.QuietLines | backend/src/main/java/com/docstyler/backend/service/DocumentProcessingService.java:115-131 | reading such lines never throws and changes at most the progress and the message |
| EndToEnd.QuietRun | backend/src/main/java/com/docstyler/backend/service/DocumentProcessingService.java:115-147 | an output without RESULT line leaves the path; exit 0 gives COMPLETED with the fallback message, any other code ERROR |
| EndToEnd.ResultRun | backend/src/main/java/com/docstyler/backend/service/DocumentProcessingService.java:115-147 | quiet lines, a RESULT line and unprefixed lines complete the job with that path, whatever the exit code |
| EndToEnd.UnprefixedLines | backend/src/main/java/com/docstyler/backend/service/DocumentProcessingService.java:115-131 | lines without any of the three prefixes leave the record as it is |
| EndToEnd.ResultThenQuiet | backend/src/main/java/com/docstyler/backend/service/DocumentProcessingService.java:115-147 | quiet lines, a RESULT line, then quiet lines leave the job COMPLETED with that path, whatever the exit code |
| EndToEnd.IntroClean | python_agent/main.py:163-166 | the four announcement lines are MESSAGE lines without line breaks when the arguments have none |
| EndToEnd.StartingClean | python_agent/main.py:20-24 | the starting lines are quiet and free of line breaks |
| EndToEnd.AnalysingClean | python_agent/main.py:39-82 | the three stage announcements are quiet and free of line breaks |
| EndToEnd.SavedClean | python_agent/main.py:126-127 | PROGRESS:100 and the success message are quiet and free of line breaks |
| EndToEnd.StagesClean | python_agent/main.py:20-127 | every line a successful run prints before RESULT is quiet and free of line breaks |
| EndToEnd.ErrorLineClean | python_agent/main.py:33 | an "ERROR: ..." line is quiet, unprefixed and free of line breaks when its message is |
| EndToEnd.ResultLineClean | python_agent/main.py:128 | the RESULT line has no line break when the output directory has none |
| EndToEnd.WrittenOutput | python_agent/main.py:126-139 | once the document is written, the run prints the success lines, then the raw-copy error if any; it exits 0 exactly without that error |
| EndToEnd.WrittenLines | python_agent/main.py:126-139 | that output is quiet lines, the RESULT line and unprefixed lines, none with a line break |
| EndToEnd.BeforeResultClean | python_agent/main.py:20-166 | all lines before RESULT are quiet and free of line breaks |
| EndToEnd.AfterResult | python_agent/main.py:131-139 | after the RESULT line there is nothing, or the raw copy's save error |
| EndToEnd.FailedOutput | python_agent/main.py:141-168 | a run that stops before writing the document exits 1 and prints only quiet, line-break-free lines |
| EndToEnd.FailedReading | python_agent/main.py:26-34 | a read failure ends the run with exit 1 and clean output |
| EndToEnd.FailedSaving | python_agent/main.py:84-139 | a failure to create the directory or write the document exits 1 with clean output |
| EndToEnd.FailedMakingDirectory | python_agent/main.py:85 | a failure to create the output directory ends the run with exit 1 and clean output |
| EndToEnd.FailedWriting | python_agent/main.py:137-139 | a failure to write the document ends the run with exit 1 and clean output |
| EndToEnd.WrittenResultCompletesJob | backend/src/main/java/com/docstyler/backend/service/DocumentProcessingService.java:111-147 | once the worker writes the document, the job ends COMPLETED with that document's path, even when the raw copy fails and the worker exits 1 |
| EndToEnd.FailedWorkerFailsJob | backend/src/main/java/com/docstyler/backend/service/DocumentProcessingService.java:137-139 | a worker that stops before writing the document ends the job in ERROR with "…ошибкой: 1", keeping the old path |
| EndToEnd.TestModeClean | python_agent/main.py:7-13 | the test-mode lines are quiet and free of line breaks |
| EndToEnd.TestModeCompletesWithoutResult | python_agent/main.py:7-13 | a job whose worker runs in test mode ends COMPLETED with no result path, and its result fetch fails with "❌ No result file found" |
| EndToEnd.CompletedIffResultWritten | backend/src/main/java/com/docstyler/backend/service/DocumentProcessingService.java:111-155 | a job ends COMPLETED exactly when its worker wrote the styled document, with that document as result path; otherwise it ends in ERROR |
| EndToEnd.BackendNeverRequestsTestMode | backend/src/main/java/com/docstyler/backend/service/DocumentProcessingService.java:100-106 | with an absolute temporary directory, the worker gets four arguments and the first is not "--test", so test mode (python_agent/main.py:143) is never entered |
| EndToEnd.LineBreakOutput | python_agent/main.py:143-166 | with a template path holding a line break and an unreadable draft, the worker prints the intro lines (one of them holding the break), the starting lines and the read error, and exits 1 |
| EndToEnd.SplitLineReadBack | backend/src/main/java/com/docstyler/backend/service/DocumentProcessingService.java:115 | a printed line holding one line break reads back as two lines |
| EndToEnd.ReadErrorRunClean | python_agent/main.py:20-34 | the starting lines and a read-error line are clean |
| EndToEnd.LineBreakLinesClean | python_agent/main.py:163-166 | the intro lines around the split and the lines after it are clean |
| EndToEnd.InjectedResultLine | backend/src/main/java/com/docstyler/backend/service/DocumentProcessingService.java:115-147 | a printed line that reads back as a quiet line and a RESULT line for p, among clean lines, leaves the job COMPLETED with result path p |
| EndToEnd.LineBreakInTemplateNameCompletesJob | backend/src/main/java/com/docstyler/backend/service/DocumentProcessingService.java:111-147 | a template path holding a line break and "RESULT:" + p, with an unreadable draft, ends the job COMPLETED with result path p although the worker exits 1 |

## Left out

- Concurrency: the executor runs each job on its own thread, and a status poll can interleave with a running job. The
  model runs a job as one method call, so it does not capture polls that see a half-updated record.
- The outer catch in `startDocumentProcessing` is not modelled. It is unreachable: the job run catches every exception itself.
- Input and output are parameters. This covers:
  - the uploads' transfer and the directory creation (`Host.stagingFailure`);
  - starting the process (`Host.launchFailure`);
  - the worker's whole standard output and its exit code (`WorkerRun`);
  - file existence and reads for the result lookup (`FileStore`);
  - the worker's filesystem (`Env`).
- An `IOException` from `readLine` and an interrupted `waitFor` are not modelled. The output is a complete string.
- The clock is a parameter `now`, one reading per call, and the UUID is the parameter `freshId`.
- The layout of the styled document (python_agent/main.py:88-125) is not modelled. Only whether the write succeeds is.
- The same holds for the raw copy's content. `time.sleep` and logging are not modelled.
- The `KeyboardInterrupt` handler (exit 130) is not modelled, because an interrupt is an external event.
- `Integer.parseInt` is modelled for ASCII digits only. Java also accepts other Unicode decimal digits.
- Exception messages are modelled as the JDK 11+ texts for `NumberFormatException` and
  `ArrayIndexOutOfBoundsException`. For the filesystem they are opaque strings. A `null` exception message
  (printed as "null") is not distinguished.
- Paths are Unix paths: no Windows separators or drive letters.
- Text is a sequence of Unicode scalar values. Encodings and decoding errors are not modelled.
- The controller's HTTP plumbing is not modelled: the health check, `testPythonAgent`, `/test-upload`,
  `/test-simple-process`, headers and media types.
- `setStatus` with strings other than the three the code uses is not modelled, and neither is anything else
  outside the backend's own calls.
- EndToEnd: the lemmas that characterise whole jobs require that the worker's arguments and failure messages
  contain no line break. This restriction is real, not cosmetic. The template and draft paths end in the
  client's original file names (`Service.StagedName`). A name holding a line break splits the worker's
  announcement line in two as the backend reads it back. The second half is then read as a protocol line.
  `EndToEnd.LineBreakInTemplateNameCompletesJob` proves the consequence for a name ending in
  "\nRESULT:" + p when the draft cannot be read: the worker fails, yet the job ends COMPLETED with result
  path p, and `getResult` serves whatever file p names, for example `application.properties` relative to the
  backend's working directory. This follows from the code; it was not executed. The model does not cover
  every other effect of such names.
- Service.RunJob: a client file name holding a NUL character makes `Path.resolve` throw during staging; the
  model folds that, like every other staging failure, into `Host.stagingFailure`.
- Service.RunJob: an absolute client file name replaces the job directory in `Path.resolve`, so the upload is
  staged outside it; the model's `Paths.PathResolve` has this behaviour, but no lemma is stated about it.

## Findings

| source | as written | input that shows it | evidently intended | confidence | as-written member | corrected member |
|---|---|---|---|---|---|---|
| backend/src/main/java/com/docstyler/backend/controller/DocumentController.java:58 | `(int) (millis / 5000) % 7` narrows the quotient to `int` before the remainder, so from 5000 * 2^31 ms the quotient wraps negative and so does the index | `currentTimeMillis()` = 10737418240000 (the year 2310) gives index -2, and `funnyMessages.get(-2)` throws | an index in 0..6 for every clock reading: the quotient taken modulo 7 as a long, or with floor modulo | not executed | Controller.RotationIndexAsWritten, Controller.RotationIndexWrapsNegative, Controller.DocumentController.GetStatus | Controller.RotationIndex |
