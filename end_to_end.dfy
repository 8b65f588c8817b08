/**
 * The worker and the backend together: what the job record ends as when the backend reads back,
 * line by line, what the worker script printed and reconciles the exit code it returned. The worker's
 * argument vector is the backend's command line without the executable (sys.argv starts at the script).
 */
module EndToEnd {
  import opened Wrappers
  import opened Text
  import JavaLang
  import opened Paths
  import opened Model
  import opened Protocol
  import Agent
  import Service
  import Locator

  /**
   * A line the backend's read loop takes without throwing and without completing the job: a PROGRESS
   * line carrying an int, or a line that does not start with "RESULT:".
   */
  predicate Quiet(line: string) {
    if StartsWith(line, ProgressPrefix) then ProgressValue(line).Success?
    else !StartsWith(line, ResultPrefix)
  }

  /** Every line is quiet and free of line breaks, so printing it and reading it back gives it unchanged. */
  predicate Clean(lines: seq<string>) {
    forall i :: 0 <= i < |lines| ==> Quiet(lines[i]) && NoLineBreak(lines[i])
  }

  lemma CleanAppend(a: seq<string>, b: seq<string>)
    requires Clean(a) && Clean(b)
    ensures Clean(a + b)
  {
    forall i | 0 <= i < |a + b| ensures Quiet((a + b)[i]) && NoLineBreak((a + b)[i]) {
      if i < |a| { assert (a + b)[i] == a[i]; } else { assert (a + b)[i] == b[i - |a|]; }
    }
  }

  /** A quiet line changes at most the progress and the message. */
  lemma QuietStep(r: Record, line: string, now: Timestamp)
    requires Quiet(line)
    ensures Step(r, line, now).Success?
    ensures Step(r, line, now).value == r.(progress := Step(r, line, now).value.progress,
                                          message := Step(r, line, now).value.message)
  {
  }

  /** Reading quiet lines never throws and changes at most the progress and the message. */
  lemma {:induction false} QuietLines(r: Record, lines: seq<string>, now: Timestamp)
    requires forall i :: 0 <= i < |lines| ==> Quiet(lines[i])
    ensures Interpret(r, lines, now).Drained?
    ensures Interpret(r, lines, now).rec == r.(progress := Interpret(r, lines, now).rec.progress,
                                              message := Interpret(r, lines, now).rec.message)
    decreases |lines|
  {
    if lines != [] {
      QuietStep(r, lines[0], now);
      var r1 := Step(r, lines[0], now).value;
      assert forall i :: 0 <= i < |lines[1..]| ==> lines[1..][i] == lines[i + 1];
      QuietLines(r1, lines[1..], now);
    }
  }

  /**
   * A run whose output holds only quiet lines leaves a job that was not yet completed with the result
   * path it had: ERROR with the exit-code message when the code is not 0, COMPLETED at 100 with the
   * fallback message when it is 0.
   */
  lemma QuietRun(r: Record, lines: seq<string>, exitCode: int, now: Timestamp)
    requires r.status != Completed
    requires forall i :: 0 <= i < |lines| ==> Quiet(lines[i])
    ensures AfterWorker(r, lines, exitCode, now).resultFilePath == r.resultFilePath
    ensures exitCode != 0 ==>
      && AfterWorker(r, lines, exitCode, now).status == Error
      && AfterWorker(r, lines, exitCode, now).message == Some(ExitFailurePrefix + JavaLang.ToString(exitCode))
    ensures exitCode == 0 ==>
      && AfterWorker(r, lines, exitCode, now).status == Completed
      && AfterWorker(r, lines, exitCode, now).progress == 100
      && AfterWorker(r, lines, exitCode, now).message == Some(FallbackMessage)
  {
    QuietLines(r, lines, now);
  }

  /**
   * Quiet lines, a RESULT line, then lines with none of the three prefixes: the job ends COMPLETED with
   * that result path whatever the exit code, exactly as the RESULT line left it.
   */
  lemma ResultRun(r: Record, before: seq<string>, path: string, after: seq<string>, exitCode: int, now: Timestamp)
    requires forall i :: 0 <= i < |before| ==> Quiet(before[i])
    requires forall i :: 0 <= i < |after| ==>
      Unprefixed(after[i])
    ensures AfterWorker(r, before + [ResultPrefix + path] + after, exitCode, now) == Completion(r, path, now)
  {
    QuietLines(r, before, now);
    var q := Interpret(r, before, now).rec;
    var c := Completion(q, path, now);
    assert c == Completion(r, path, now);
    InterpretAppend(r, before, [ResultPrefix + path] + after, now);
    assert before + [ResultPrefix + path] + after == before + ([ResultPrefix + path] + after);
    ResultLine(q, path, now);
    assert ([ResultPrefix + path] + after)[1..] == after;
    UnprefixedLines(c, after, now);
  }

  /** Lines with none of the three prefixes leave the record as it is. */
  lemma {:induction false} UnprefixedLines(r: Record, lines: seq<string>, now: Timestamp)
    requires forall i :: 0 <= i < |lines| ==>
      Unprefixed(lines[i])
    ensures Interpret(r, lines, now) == Drained(r)
    decreases |lines|
  {
    if lines != [] {
      OtherLine(r, lines[0], now);
      assert forall i :: 0 <= i < |lines[1..]| ==> lines[1..][i] == lines[i + 1];
      UnprefixedLines(r, lines[1..], now);
    }
  }

  /**
   * Quiet lines, a RESULT line, then more quiet lines: the job ends COMPLETED with that result path
   * whatever the exit code; the later lines change only its progress and message.
   */
  lemma ResultThenQuiet(r: Record, before: seq<string>, path: string, after: seq<string>, exitCode: int, now: Timestamp)
    requires forall i :: 0 <= i < |before| ==> Quiet(before[i])
    requires forall i :: 0 <= i < |after| ==> Quiet(after[i])
    ensures AfterWorker(r, before + [ResultPrefix + path] + after, exitCode, now).status == Completed
    ensures AfterWorker(r, before + [ResultPrefix + path] + after, exitCode, now).resultFilePath == Some(path)
  {
    QuietLines(r, before, now);
    var q := Interpret(r, before, now).rec;
    var c := Completion(q, path, now);
    InterpretAppend(r, before, [ResultPrefix + path] + after, now);
    assert before + [ResultPrefix + path] + after == before + ([ResultPrefix + path] + after);
    ResultLine(q, path, now);
    assert ([ResultPrefix + path] + after)[1..] == after;
    QuietLines(c, after, now);
  }

  // ----- the worker's lines -----

  /** A line whose first character differs from a prefix's does not start with it. */
  lemma Differs(s: string, prefix: string)
    requires s != [] && prefix != [] && s[0] != prefix[0]
    ensures !StartsWith(s, prefix)
  {
    assert |prefix| <= |s| ==> s[..|prefix|][0] == s[0];
  }

  /** A line that starts with neither 'P' nor 'R' is quiet. */
  lemma FirstCharQuiet(line: string)
    requires line != [] && line[0] != 'P' && line[0] != 'R'
    ensures Quiet(line)
  {
    Differs(line, ProgressPrefix);
    Differs(line, ResultPrefix);
  }

  /** A PROGRESS line carrying an int is quiet. */
  lemma ProgressQuiet(n: int, digits: string)
    requires JavaLang.IsInt(n) && JavaLang.ToString(n) == digits
    ensures Quiet(ProgressPrefix + digits)
  {
    ProgressLine(BlankRecord(0), n, 0);
  }

  /** A line of text followed by an argument has no line break when neither has one. */
  lemma IntroLineClean(text: string, arg: string)
    requires text != [] && text[0] == 'M' && NoLineBreak(text) && NoLineBreak(arg)
    ensures Quiet(text + arg) && NoLineBreak(text + arg)
  {
    ConcatNoLineBreak(text, arg);
    assert (text + arg)[0] == 'M';
    FirstCharQuiet(text + arg);
  }

  lemma IntroTextsNoLineBreak()
    ensures NoLineBreak("MESSAGE:Запуск обработки...") && NoLineBreak("MESSAGE:Шаблон: ")
    ensures NoLineBreak("MESSAGE:Черновик: ") && NoLineBreak("MESSAGE:Выходная директория: ")
  {
  }

  /** The four lines announcing a processing run are clean when the three arguments are. */
  lemma IntroClean(t: string, d: string, o: string)
    requires NoLineBreak(t) && NoLineBreak(d) && NoLineBreak(o)
    ensures Clean(Agent.IntroLines(t, d, o))
  {
    var lines := Agent.IntroLines(t, d, o);
    IntroTextsNoLineBreak();
    FirstCharQuiet(lines[0]);
    IntroLineClean("MESSAGE:Шаблон: ", t);
    IntroLineClean("MESSAGE:Черновик: ", d);
    IntroLineClean("MESSAGE:Выходная директория: ", o);
  }

  /** Two clean lines make a clean pair. */
  lemma CleanPair(a: string, b: string)
    requires Quiet(a) && NoLineBreak(a) && Quiet(b) && NoLineBreak(b)
    ensures Clean([a, b])
  {
  }

  /** A MESSAGE line and a PROGRESS line carrying an int, both free of line breaks, are clean. */
  lemma StageClean(n: int, digits: string, message: string)
    requires JavaLang.IsInt(n) && JavaLang.ToString(n) == digits
    requires NoLineBreak(ProgressPrefix + digits)
    requires message != [] && message[0] == 'M' && NoLineBreak(message)
    ensures Clean([ProgressPrefix + digits, message])
  {
    ProgressQuiet(n, digits);
    FirstCharQuiet(message);
    CleanPair(ProgressPrefix + digits, message);
  }

  lemma StartingTexts()
    ensures NoLineBreak("MESSAGE:Запуск DocStyler Python агента...") && NoLineBreak("PROGRESS:20")
    ensures NoLineBreak("MESSAGE:Чтение входных файлов...")
  {
  }

  lemma StartingClean()
    ensures Clean(Agent.StartingLines)
  {
    var l0, l1, l2 := "MESSAGE:Запуск DocStyler Python агента...", "PROGRESS:20", "MESSAGE:Чтение входных файлов...";
    StartingTexts();
    assert ProgressPrefix + "20" == l1;
    assert JavaLang.ToString(20) == "20";
    StageClean(20, "20", l2);
    FirstCharQuiet(l0);
    assert Agent.StartingLines == [l0] + [l1, l2];
    CleanAppend([l0], [l1, l2]);
  }

  lemma TemplateStageTexts()
    ensures NoLineBreak("PROGRESS:40") && NoLineBreak("MESSAGE:Анализ шаблона стилей...")
  {
  }

  lemma DraftStageTexts()
    ensures NoLineBreak("PROGRESS:60") && NoLineBreak("MESSAGE:Обработка документа...")
  {
  }

  lemma SaveStageTexts()
    ensures NoLineBreak("PROGRESS:80") && NoLineBreak("MESSAGE:Сохранение результата...")
  {
  }

  lemma AnalysingClean()
    ensures Clean(Agent.AnalysingLines)
  {
    TemplateStageTexts();
    DraftStageTexts();
    SaveStageTexts();
    assert JavaLang.ToString(40) == "40";
    assert JavaLang.ToString(60) == "60";
    assert JavaLang.ToString(80) == "80";
    assert ProgressPrefix + "40" == "PROGRESS:40";
    assert ProgressPrefix + "60" == "PROGRESS:60";
    assert ProgressPrefix + "80" == "PROGRESS:80";
    StageClean(40, "40", "MESSAGE:Анализ шаблона стилей...");
    StageClean(60, "60", "MESSAGE:Обработка документа...");
    StageClean(80, "80", "MESSAGE:Сохранение результата...");
    CleanAppend(Agent.TemplateStageLines, Agent.DraftStageLines);
    CleanAppend(Agent.TemplateStageLines + Agent.DraftStageLines, Agent.SaveStageLines);
  }

  lemma SavedClean()
    ensures Clean(Agent.SavedLines)
  {
    assert NoLineBreak("PROGRESS:100") && NoLineBreak("MESSAGE:Обработка успешно завершена!");
    assert JavaLang.ToString(100) == "100";
    assert ProgressPrefix + "100" == "PROGRESS:100";
    StageClean(100, "100", "MESSAGE:Обработка успешно завершена!");
  }

  /** The progress and message lines of a successful run, before its RESULT line, are clean. */
  lemma StagesClean()
    ensures Clean(Agent.StartingLines + Agent.AnalysingLines + Agent.SavedLines)
  {
    StartingClean();
    AnalysingClean();
    SavedClean();
    CleanAppend(Agent.StartingLines, Agent.AnalysingLines);
    CleanAppend(Agent.StartingLines + Agent.AnalysingLines, Agent.SavedLines);
  }

  /** Clean lines, printed and read back, are the same lines. */
  lemma ReadBack(lines: seq<string>)
    requires Clean(lines)
    ensures JavaLang.ReadLines(Printed(lines)) == lines
  {
    JavaLang.ReadLinesOfPrinted(lines);
  }

  /** An error line the worker prints: a prefix starting with 'E', then the failure's message. */
  lemma ErrorLineClean(prefix: string, e: string)
    requires prefix != [] && prefix[0] == 'E' && NoLineBreak(prefix) && NoLineBreak(e)
    ensures Clean([prefix + e]) && Unprefixed(prefix + e)
  {
    ConcatNoLineBreak(prefix, e);
    assert (prefix + e)[0] == 'E';
    FirstCharQuiet(prefix + e);
    Differs(prefix + e, MessagePrefix);
  }

  /** The line starts with none of the three prefixes the backend looks for. */
  predicate Unprefixed(line: string) {
    !StartsWith(line, ProgressPrefix) && !StartsWith(line, MessagePrefix) && !StartsWith(line, ResultPrefix)
  }

  lemma InputErrorTexts()
    ensures NoLineBreak(Agent.MissingFilePrefix) && NoLineBreak(Agent.ReadErrorPrefix)
    ensures Agent.MissingFilePrefix[0] == 'E' && Agent.ReadErrorPrefix[0] == 'E'
  {
  }

  lemma SaveErrorTexts()
    ensures NoLineBreak(Agent.SaveErrorPrefix) && NoLineBreak(Agent.CrashPrefix)
    ensures Agent.SaveErrorPrefix[0] == 'E' && Agent.CrashPrefix[0] == 'E'
  {
  }

  // ----- whole jobs -----

  /** The three arguments of a processing run contain no line break. */
  predicate ArgsClean(argv: seq<string>) {
    |argv| == 4 && NoLineBreak(argv[1]) && NoLineBreak(argv[2]) && NoLineBreak(argv[3])
  }

  /** The message of every failure the worker's filesystem can report for this run contains no line break. */
  predicate FailuresClean(argv: seq<string>, env: Agent.Env)
    requires |argv| == 4
  {
    && (env.read(argv[1]).Failure? ==> NoLineBreak(env.read(argv[1]).error))
    && (env.read(argv[2]).Failure? ==> NoLineBreak(env.read(argv[2]).error))
    && (env.makedirs(argv[3]).Some? ==> NoLineBreak(env.makedirs(argv[3]).value))
    && (env.write(Agent.ResultPath(argv[3])).Some? ==> NoLineBreak(env.write(Agent.ResultPath(argv[3])).value))
    && (env.write(Agent.RawPath(argv[3])).Some? ==> NoLineBreak(env.write(Agent.RawPath(argv[3])).value))
  }

  /**
   * The worker gets as far as writing the styled document: both inputs exist and are read, the output
   * directory is created and the document is written. This is when it prints its RESULT line.
   */
  predicate ResultWritten(argv: seq<string>, env: Agent.Env)
    requires |argv| == 4
  {
    && env.present(argv[1]) && env.present(argv[2])
    && env.read(argv[1]).Success? && env.read(argv[2]).Success?
    && env.makedirs(argv[3]).None? && env.write(Agent.ResultPath(argv[3])).None?
  }

  /** The lines before the RESULT line of a run that writes its result. */
  function BeforeResult(argv: seq<string>): seq<string>
    requires |argv| == 4
  {
    Agent.IntroLines(argv[1], argv[2], argv[3]) + (Agent.StartingLines + Agent.AnalysingLines + Agent.SavedLines)
  }

  /** A run that writes its result prints the success lines, then at most one error line; it exits 0 only without it. */
  lemma WrittenOutput(argv: seq<string>, env: Agent.Env)
    requires |argv| == 4 && !Agent.TestMode(argv) && ResultWritten(argv, env)
    ensures var out := Agent.AgentRun(argv, env);
      && (env.write(Agent.RawPath(argv[3])).None? ==>
            out == Agent.Outcome(BeforeResult(argv) + ["RESULT:" + Agent.ResultPath(argv[3])], 0))
      && (env.write(Agent.RawPath(argv[3])).Some? ==>
            out == Agent.Outcome(BeforeResult(argv) + ["RESULT:" + Agent.ResultPath(argv[3])]
                                 + [Agent.SaveErrorPrefix + env.write(Agent.RawPath(argv[3])).value], 1))
  {
    var t, d, o := argv[1], argv[2], argv[3];
    if env.write(Agent.RawPath(o)).Some? {
      Agent.RawSaveFails(t, d, o, env);
    }
  }

  /**
   * A job whose worker writes the styled document ends COMPLETED, at 100, with the completion message
   * and that document as its result path, whatever the exit code: a failure to write the raw copy
   * afterwards makes the worker exit 1 but does not make the job fail.
   */
  lemma WrittenResultCompletesJob(r: Record, agentPath: string, host: Service.Host, argv: seq<string>,
                                  env: Agent.Env, now: Timestamp)
    requires host.stagingFailure.None? && Locator.Locate(agentPath, host.userDir, host.present).Success?
    requires host.launchFailure.None?
    requires ArgsClean(argv) && !Agent.TestMode(argv) && FailuresClean(argv, env) && ResultWritten(argv, env)
    ensures var out := Agent.AgentRun(argv, env);
      && out.exitCode == (if env.write(Agent.RawPath(argv[3])).None? then 0 else 1)
      && Service.RunJob(r, agentPath, host, Service.WorkerRun(Printed(out.stdout), out.exitCode), now)
           == Completion(Service.Staged(r), Agent.ResultPath(argv[3]), now)
  {
    var after := WrittenLines(argv, env);
    var out := Agent.AgentRun(argv, env);
    JavaLang.ReadLinesOfPrinted(out.stdout);
    ResultRun(Service.Staged(r), BeforeResult(argv), Agent.ResultPath(argv[3]), after, out.exitCode, now);
  }

  /**
   * The output of a run that writes its result, split at its RESULT line: quiet lines before it, at most
   * one unprefixed error line after it, and no line break anywhere.
   */
  lemma WrittenLines(argv: seq<string>, env: Agent.Env) returns (after: seq<string>)
    requires ArgsClean(argv) && !Agent.TestMode(argv) && FailuresClean(argv, env) && ResultWritten(argv, env)
    ensures var out := Agent.AgentRun(argv, env);
      && out.exitCode == (if env.write(Agent.RawPath(argv[3])).None? then 0 else 1)
      && out.stdout == BeforeResult(argv) + [ResultPrefix + Agent.ResultPath(argv[3])] + after
      && (forall i :: 0 <= i < |out.stdout| ==> NoLineBreak(out.stdout[i]))
    ensures forall i :: 0 <= i < |BeforeResult(argv)| ==> Quiet(BeforeResult(argv)[i])
    ensures forall i :: 0 <= i < |after| ==>
      Unprefixed(after[i])
  {
    WrittenOutput(argv, env);
    BeforeResultClean(argv);
    ResultLineClean(argv[3]);
    after := AfterResult(argv, env);
    PrintedLinesClean(BeforeResult(argv), ResultPrefix + Agent.ResultPath(argv[3]), after);
  }

  lemma BeforeResultClean(argv: seq<string>)
    requires ArgsClean(argv)
    ensures Clean(BeforeResult(argv))
  {
    IntroClean(argv[1], argv[2], argv[3]);
    StagesClean();
    CleanAppend(Agent.IntroLines(argv[1], argv[2], argv[3]), Agent.StartingLines + Agent.AnalysingLines + Agent.SavedLines);
  }

  /** What a run that writes its result prints after its RESULT line: nothing, or the raw copy's save error. */
  lemma AfterResult(argv: seq<string>, env: Agent.Env) returns (after: seq<string>)
    requires ArgsClean(argv) && FailuresClean(argv, env)
    ensures env.write(Agent.RawPath(argv[3])).None? ==> after == []
    ensures env.write(Agent.RawPath(argv[3])).Some? ==>
      after == [Agent.SaveErrorPrefix + env.write(Agent.RawPath(argv[3])).value]
    ensures Clean(after)
    ensures forall i :: 0 <= i < |after| ==>
      Unprefixed(after[i])
  {
    var raw := env.write(Agent.RawPath(argv[3]));
    if raw.None? {
      after := [];
    } else {
      after := [Agent.SaveErrorPrefix + raw.value];
      SaveErrorTexts();
      ErrorLineClean(Agent.SaveErrorPrefix, raw.value);
    }
  }

  /** Clean lines, one line, and clean lines: none of them has a line break. */
  lemma PrintedLinesClean(before: seq<string>, line: string, after: seq<string>)
    requires Clean(before) && NoLineBreak(line) && Clean(after)
    ensures forall i :: 0 <= i < |before + [line] + after| ==> NoLineBreak((before + [line] + after)[i])
  {
    var all := before + [line] + after;
    forall i | 0 <= i < |all| ensures NoLineBreak(all[i]) {
      if i < |before| { assert all[i] == before[i]; }
      else if i > |before| { assert all[i] == after[i - |before| - 1]; }
    }
  }

  /** A run that stops before writing its result prints only clean lines and exits 1. */
  lemma FailedOutput(argv: seq<string>, env: Agent.Env)
    requires ArgsClean(argv) && !Agent.TestMode(argv) && FailuresClean(argv, env) && !ResultWritten(argv, env)
    ensures Agent.AgentRun(argv, env).exitCode == 1 && Clean(Agent.AgentRun(argv, env).stdout)
  {
    var t, d, o := argv[1], argv[2], argv[3];
    InputErrorTexts();
    if !env.present(t) {
      ErrorLineClean(Agent.MissingFilePrefix, t);
    } else if !env.present(d) {
      ErrorLineClean(Agent.MissingFilePrefix, d);
    } else {
      var intro := Agent.IntroLines(t, d, o);
      IntroClean(t, d, o);
      StartingClean();
      CleanAppend(intro, Agent.StartingLines);
      if env.read(t).Failure? || env.read(d).Failure? {
        FailedReading(argv, env);
      } else {
        FailedSaving(argv, env);
      }
    }
  }

  lemma FailedReading(argv: seq<string>, env: Agent.Env)
    requires ArgsClean(argv) && !Agent.TestMode(argv) && FailuresClean(argv, env)
    requires env.present(argv[1]) && env.present(argv[2])
    requires env.read(argv[1]).Failure? || env.read(argv[2]).Failure?
    requires Clean(Agent.IntroLines(argv[1], argv[2], argv[3]) + Agent.StartingLines)
    requires NoLineBreak(Agent.ReadErrorPrefix)
    ensures Agent.AgentRun(argv, env).exitCode == 1 && Clean(Agent.AgentRun(argv, env).stdout)
  {
    var t, d, o := argv[1], argv[2], argv[3];
    var e := if env.read(t).Failure? then env.read(t).error else env.read(d).error;
    assert Agent.ProcessRun(t, d, o, env) == Agent.Run(Agent.StartingLines + [Agent.ReadErrorPrefix + e], Success(1));
    ErrorLineClean(Agent.ReadErrorPrefix, e);
    var intro := Agent.IntroLines(t, d, o);
    CleanAppend(intro + Agent.StartingLines, [Agent.ReadErrorPrefix + e]);
    assert Agent.AgentRun(argv, env).stdout == intro + Agent.StartingLines + [Agent.ReadErrorPrefix + e];
  }

  lemma FailedSaving(argv: seq<string>, env: Agent.Env)
    requires ArgsClean(argv) && !Agent.TestMode(argv) && FailuresClean(argv, env)
    requires env.present(argv[1]) && env.present(argv[2])
    requires env.read(argv[1]).Success? && env.read(argv[2]).Success?
    requires env.makedirs(argv[3]).Some? || env.write(Agent.ResultPath(argv[3])).Some?
    requires Clean(Agent.IntroLines(argv[1], argv[2], argv[3]) + Agent.StartingLines)
    ensures Agent.AgentRun(argv, env).exitCode == 1 && Clean(Agent.AgentRun(argv, env).stdout)
  {
    var intro := Agent.IntroLines(argv[1], argv[2], argv[3]);
    SaveErrorTexts();
    AnalysingClean();
    CleanAppend(intro + Agent.StartingLines, Agent.AnalysingLines);
    if env.makedirs(argv[3]).Some? {
      FailedMakingDirectory(argv, env);
    } else {
      FailedWriting(argv, env);
    }
  }

  lemma FailedMakingDirectory(argv: seq<string>, env: Agent.Env)
    requires ArgsClean(argv) && !Agent.TestMode(argv) && FailuresClean(argv, env)
    requires env.present(argv[1]) && env.present(argv[2])
    requires env.read(argv[1]).Success? && env.read(argv[2]).Success? && env.makedirs(argv[3]).Some?
    requires Clean(Agent.IntroLines(argv[1], argv[2], argv[3]) + Agent.StartingLines + Agent.AnalysingLines)
    requires NoLineBreak(Agent.CrashPrefix)
    ensures Agent.AgentRun(argv, env).exitCode == 1 && Clean(Agent.AgentRun(argv, env).stdout)
  {
    var t, d, o := argv[1], argv[2], argv[3];
    var intro := Agent.IntroLines(t, d, o);
    var printed := Agent.StartingLines + Agent.AnalysingLines;
    var e := env.makedirs(o).value;
    assert Agent.ProcessRun(t, d, o, env) == Agent.Run(printed, Failure(e));
    ErrorLineClean(Agent.CrashPrefix, e);
    assert intro + printed == intro + Agent.StartingLines + Agent.AnalysingLines;
    CleanAppend(intro + printed, [Agent.CrashPrefix + e]);
    assert Agent.AgentRun(argv, env).stdout == intro + printed + [Agent.CrashPrefix + e];
  }

  lemma FailedWriting(argv: seq<string>, env: Agent.Env)
    requires ArgsClean(argv) && !Agent.TestMode(argv) && FailuresClean(argv, env)
    requires env.present(argv[1]) && env.present(argv[2])
    requires env.read(argv[1]).Success? && env.read(argv[2]).Success? && env.makedirs(argv[3]).None?
    requires env.write(Agent.ResultPath(argv[3])).Some?
    requires Clean(Agent.IntroLines(argv[1], argv[2], argv[3]) + Agent.StartingLines + Agent.AnalysingLines)
    requires NoLineBreak(Agent.SaveErrorPrefix)
    ensures Agent.AgentRun(argv, env).exitCode == 1 && Clean(Agent.AgentRun(argv, env).stdout)
  {
    var t, d, o := argv[1], argv[2], argv[3];
    var intro := Agent.IntroLines(t, d, o);
    var printed := Agent.StartingLines + Agent.AnalysingLines;
    var e := env.write(Agent.ResultPath(o)).value;
    Agent.SaveFails(t, d, o, env);
    ErrorLineClean(Agent.SaveErrorPrefix, e);
    assert intro + printed == intro + Agent.StartingLines + Agent.AnalysingLines;
    CleanAppend(intro + printed, [Agent.SaveErrorPrefix + e]);
    assert intro + (printed + [Agent.SaveErrorPrefix + e]) == intro + printed + [Agent.SaveErrorPrefix + e];
  }

  /**
   * A job whose worker stops before writing the styled document ends in ERROR with the message for exit
   * code 1, and keeps the result path it had (none, for a job just accepted).
   */
  lemma FailedWorkerFailsJob(r: Record, agentPath: string, host: Service.Host, argv: seq<string>,
                             env: Agent.Env, now: Timestamp)
    requires host.stagingFailure.None? && Locator.Locate(agentPath, host.userDir, host.present).Success?
    requires host.launchFailure.None?
    requires r.status != Completed
    requires ArgsClean(argv) && !Agent.TestMode(argv) && FailuresClean(argv, env) && !ResultWritten(argv, env)
    ensures var out := Agent.AgentRun(argv, env);
      var rec := Service.RunJob(r, agentPath, host, Service.WorkerRun(Printed(out.stdout), out.exitCode), now);
      && out.exitCode == 1
      && rec.status == Error
      && rec.message == Some(ExitFailurePrefix + "1")
      && rec.resultFilePath == r.resultFilePath
  {
    var out := Agent.AgentRun(argv, env);
    FailedOutput(argv, env);
    ReadBack(out.stdout);
    QuietRun(Service.Staged(r), out.stdout, 1, now);
    assert JavaLang.ToString(1) == "1";
  }

  /**
   * The worker's test mode prints only quiet lines and exits 0, so a job run in test mode ends COMPLETED
   * without a result path: its result cannot be fetched.
   */
  lemma TestModeCompletesWithoutResult(r: Record, agentPath: string, host: Service.Host, argv: seq<string>,
                                       env: Agent.Env, store: Service.FileStore, now: Timestamp)
    requires host.stagingFailure.None? && Locator.Locate(agentPath, host.userDir, host.present).Success?
    requires host.launchFailure.None?
    requires r.status != Completed && r.resultFilePath.None?
    requires Agent.TestMode(argv)
    ensures var out := Agent.AgentRun(argv, env);
      var rec := Service.RunJob(r, agentPath, host, Service.WorkerRun(Printed(out.stdout), out.exitCode), now);
      && rec.status == Completed
      && rec.message == Some(FallbackMessage)
      && rec.resultFilePath.None?
      && Service.ResultOf(rec, store) == Failure(Service.NoResultMessage)
  {
    TestModeClean();
    ReadBack(Agent.TestModeLines);
    QuietRun(Service.Staged(r), Agent.TestModeLines, 0, now);
  }

  lemma TestModeBanner()
    ensures NoLineBreak("Python agent DocStyler started!") && NoLineBreak("Version: 2.0.0")
  {
  }

  lemma TestModeMessages()
    ensures NoLineBreak("MESSAGE:Python agent работает корректно")
    ensures NoLineBreak("MESSAGE:Готов к интеграции с ML моделью")
  {
  }

  /** The test-mode lines are clean. */
  lemma TestModeClean()
    ensures Clean(Agent.TestModeLines)
  {
    var l0, l1 := "Python agent DocStyler started!", "Version: 2.0.0";
    var l2, l3 := "MESSAGE:Python agent работает корректно", "MESSAGE:Готов к интеграции с ML моделью";
    TestModeBanner();
    TestModeMessages();
    assert !StartsWith(l0, ProgressPrefix) by { assert l0[1] != ProgressPrefix[1]; assert l0[..9][1] == l0[1]; }
    Differs(l0, ResultPrefix);
    FirstCharQuiet(l1);
    FirstCharQuiet(l2);
    FirstCharQuiet(l3);
    CleanPair(l0, l1);
    CleanPair(l2, l3);
    assert Agent.TestModeLines == [l0, l1] + [l2, l3];
    CleanAppend([l0, l1], [l2, l3]);
  }

  lemma ResultTextsNoLineBreak()
    ensures NoLineBreak("RESULT:") && NoLineBreak(Agent.ResultFileName)
  {
  }

  /** The RESULT line of a run with output directory o has no line break when o has none. */
  lemma ResultLineClean(o: string)
    requires NoLineBreak(o)
    ensures NoLineBreak("RESULT:" + Agent.ResultPath(o))
  {
    ResultTextsNoLineBreak();
    PathsNoLineBreak(o, Agent.ResultFileName);
    ConcatNoLineBreak("RESULT:", Agent.ResultPath(o));
  }

  /**
   * For a job still running, with a worker that is found and started: the job ends COMPLETED exactly when
   * the worker wrote the styled document, and then its result path is that document; otherwise it ends in ERROR.
   */
  lemma CompletedIffResultWritten(r: Record, agentPath: string, host: Service.Host, argv: seq<string>,
                                  env: Agent.Env, now: Timestamp)
    requires host.stagingFailure.None? && Locator.Locate(agentPath, host.userDir, host.present).Success?
    requires host.launchFailure.None?
    requires r.status != Completed
    requires ArgsClean(argv) && !Agent.TestMode(argv) && FailuresClean(argv, env)
    ensures var out := Agent.AgentRun(argv, env);
      var rec := Service.RunJob(r, agentPath, host, Service.WorkerRun(Printed(out.stdout), out.exitCode), now);
      && (rec.status == Completed <==> ResultWritten(argv, env))
      && (rec.status == Completed ==> rec.resultFilePath == Some(Agent.ResultPath(argv[3])))
      && (rec.status != Completed ==> rec.status == Error)
  {
    if ResultWritten(argv, env) {
      WrittenResultCompletesJob(r, agentPath, host, argv, env, now);
    } else {
      FailedWorkerFailsJob(r, agentPath, host, argv, env, now);
    }
  }

  /**
   * The backend never starts the worker in test mode: with an absolute temporary directory, the worker is
   * given the script and three absolute paths, and the first of them is not "--test".
   */
  lemma BackendNeverRequestsTestMode(svc: Service.DocumentProcessingService, processId: string,
                                     template: Service.Upload, draft: Service.Upload, host: Service.Host)
    ensures var cmd := svc.CommandFor(processId, template, draft, host);
      cmd.Some? && IsAbsolute(svc.tempDirectory) ==> |cmd.value[1..]| == 4 && !Agent.TestMode(cmd.value[1..])
  {
    var cmd := svc.CommandFor(processId, template, draft, host);
    if cmd.Some? && IsAbsolute(svc.tempDirectory) {
      assert cmd.value[1..][1] == cmd.value[2];
      assert cmd.value[2][0] == '/' != Agent.TestFlag[0];
    }
  }

  // ----- a file name with a line break -----

  /**
   * The output of a run whose template path is t, a line break, then "RESULT:" and p, and whose draft
   * cannot be read: the first intro line, the template's announcement holding that path, the other two
   * intro lines, the starting lines and the read error; the run exits 1.
   */
  lemma LineBreakOutput(argv: seq<string>, t: string, p: string, env: Agent.Env)
    requires |argv| == 4 && argv[1] == t + "\n" + ResultPrefix + p
    requires env.present(argv[1]) && env.present(argv[2])
    requires env.read(argv[1]).Success? && env.read(argv[2]).Failure?
    ensures var intro := Agent.IntroLines(t, argv[2], argv[3]);
      Agent.AgentRun(argv, env) == Agent.Outcome(
        [intro[0]] + [intro[1] + "\n" + (ResultPrefix + p)]
        + (intro[2..] + Agent.StartingLines + [Agent.ReadErrorPrefix + env.read(argv[2]).error]), 1)
  {
    assert |argv[1]| >= 8;
    assert !Agent.TestMode(argv);
    var intro := Agent.IntroLines(t, argv[2], argv[3]);
    var m := "MESSAGE:Шаблон: ";
    assert m + argv[1] == (m + t) + "\n" + (ResultPrefix + p);
    assert Agent.IntroLines(argv[1], argv[2], argv[3])
      == [intro[0], intro[1] + "\n" + (ResultPrefix + p)] + intro[2..];
    assert Agent.ProcessRun(argv[1], argv[2], argv[3], env).stdout
      == Agent.StartingLines + [Agent.ReadErrorPrefix + env.read(argv[2]).error];
  }

  /** A slice of clean lines is clean. */
  lemma CleanSlice(lines: seq<string>, i: nat, j: nat)
    requires Clean(lines) && i <= j <= |lines|
    ensures Clean(lines[i..j])
  {
    forall k | 0 <= k < j - i ensures Quiet(lines[i..j][k]) && NoLineBreak(lines[i..j][k]) {
      assert lines[i..j][k] == lines[i + k];
    }
  }

  /** Printing a line holding one line break and reading the text back gives its two halves as two lines. */
  lemma SplitLineReadBack(before: seq<string>, x: string, y: string, after: seq<string>)
    requires Clean(before) && Clean(after) && NoLineBreak(x) && NoLineBreak(y)
    ensures JavaLang.ReadLines(Printed(before + [x + "\n" + y] + after)) == before + [x, y] + after
  {
    PrintedSplitLine(before, x, y, after);
    var lines := before + [x, y] + after;
    forall i | 0 <= i < |lines| ensures NoLineBreak(lines[i]) {
      if i < |before| { assert lines[i] == before[i]; }
      else if i >= |before| + 2 { assert lines[i] == after[i - |before| - 2]; }
    }
    JavaLang.ReadLinesOfPrinted(lines);
  }

  /** The starting lines followed by a read error are clean. */
  lemma ReadErrorRunClean(e: string)
    requires NoLineBreak(e)
    ensures Clean(Agent.StartingLines + [Agent.ReadErrorPrefix + e])
  {
    StartingClean();
    InputErrorTexts();
    ErrorLineClean(Agent.ReadErrorPrefix, e);
    CleanAppend(Agent.StartingLines, [Agent.ReadErrorPrefix + e]);
  }

  /** The intro lines before and after the template's announcement are clean. */
  lemma IntroSlicesClean(t: string, d: string, o: string)
    requires NoLineBreak(t) && NoLineBreak(d) && NoLineBreak(o)
    ensures Clean(Agent.IntroLines(t, d, o)[..2]) && Clean(Agent.IntroLines(t, d, o)[2..])
  {
    var intro := Agent.IntroLines(t, d, o);
    IntroClean(t, d, o);
    CleanSlice(intro, 0, 2);
    CleanSlice(intro, 2, |intro|);
    assert intro[0..2] == intro[..2] && intro[2..|intro|] == intro[2..];
  }

  /** The intro lines for t, d and o, split after the template's, and the lines after them, are clean. */
  lemma LineBreakLinesClean(t: string, d: string, o: string, e: string)
    requires NoLineBreak(t) && NoLineBreak(d) && NoLineBreak(o) && NoLineBreak(e)
    ensures var intro := Agent.IntroLines(t, d, o);
      Clean(intro[..2]) && Clean(intro[2..] + Agent.StartingLines + [Agent.ReadErrorPrefix + e])
  {
    var intro := Agent.IntroLines(t, d, o);
    IntroSlicesClean(t, d, o);
    ReadErrorRunClean(e);
    CleanAppend(intro[2..], Agent.StartingLines + [Agent.ReadErrorPrefix + e]);
    assert intro[2..] + (Agent.StartingLines + [Agent.ReadErrorPrefix + e])
      == intro[2..] + Agent.StartingLines + [Agent.ReadErrorPrefix + e];
  }

  /** A RESULT line for a path without line breaks has none. */
  lemma ResultPrefixedClean(p: string)
    requires NoLineBreak(p)
    ensures NoLineBreak(ResultPrefix + p)
  {
    ResultTextsNoLineBreak();
    ConcatNoLineBreak(ResultPrefix, p);
  }

  /**
   * Worker output holding a line that, read back, becomes a quiet line and a RESULT line for p, among
   * clean lines: the read loop and the exit-code check leave the job COMPLETED with p as its result path,
   * whatever the exit code.
   */
  lemma InjectedResultLine(r: Record, before: seq<string>, x: string, p: string, after: seq<string>,
                           exitCode: int, now: Timestamp)
    requires Clean(before + [x]) && Clean(after) && NoLineBreak(p)
    ensures var lines := JavaLang.ReadLines(Printed(before + [x + "\n" + (ResultPrefix + p)] + after));
      && AfterWorker(r, lines, exitCode, now).status == Completed
      && AfterWorker(r, lines, exitCode, now).resultFilePath == Some(p)
  {
    var quiet := before + [x];
    CleanSlice(quiet, 0, |before|);
    assert quiet[0..|before|] == before && quiet[|before|] == x;
    ResultPrefixedClean(p);
    SplitLineReadBack(before, x, ResultPrefix + p, after);
    assert before + [x, ResultPrefix + p] + after == quiet + [ResultPrefix + p] + after;
    ResultThenQuiet(r, quiet, p, after, exitCode, now);
  }

  /**
   * A template path holding a line break, then "RESULT:" and a path p, with a draft that cannot be read:
   * the worker fails and exits 1, but the line announcing the template reads back as two lines, the second
   * a RESULT line, so the job ends COMPLETED with p as its result path.
   */
  lemma LineBreakInTemplateNameCompletesJob(r: Record, agentPath: string, host: Service.Host, argv: seq<string>,
                                            t: string, p: string, env: Agent.Env, now: Timestamp)
    requires host.stagingFailure.None? && Locator.Locate(agentPath, host.userDir, host.present).Success?
    requires host.launchFailure.None?
    requires |argv| == 4 && argv[1] == t + "\n" + ResultPrefix + p
    requires NoLineBreak(t) && NoLineBreak(p) && NoLineBreak(argv[2]) && NoLineBreak(argv[3])
    requires env.present(argv[1]) && env.present(argv[2])
    requires env.read(argv[1]).Success? && env.read(argv[2]).Failure? && NoLineBreak(env.read(argv[2]).error)
    ensures var out := Agent.AgentRun(argv, env);
      var rec := Service.RunJob(r, agentPath, host, Service.WorkerRun(Printed(out.stdout), out.exitCode), now);
      && out.exitCode == 1
      && rec.status == Completed
      && rec.resultFilePath == Some(p)
  {
    var d, o, e := argv[2], argv[3], env.read(argv[2]).error;
    var intro := Agent.IntroLines(t, d, o);
    LineBreakOutput(argv, t, p, env);
    LineBreakLinesClean(t, d, o, e);
    assert intro[..2] == [intro[0]] + [intro[1]];
    InjectedResultLine(Service.Staged(r), [intro[0]], intro[1], p,
                       intro[2..] + Agent.StartingLines + [Agent.ReadErrorPrefix + e], 1, now);
  }
}
