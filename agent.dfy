/**
 * The worker script (python_agent/main.py): its argument dispatch, the style extraction from the
 * template, the per-line styling of the draft, and the protocol lines it prints. The filesystem is a
 * parameter (which paths exist, what reading a file gives, whether creating the output directory or
 * writing a file fails, and with what message); the layout of the written document is not modelled.
 */
module Agent {
  import opened Wrappers
  import opened Text
  import Paths

  const StyleMarker: string := "---"
  const DefaultHeadingStyle: string := "Times New Roman, 14pt"
  const DefaultSectionStyle: string := "Arial, 12pt"
  const DefaultBodyStyle: string := "Calibri, 11pt"
  const SectionNames: seq<string> := ["Введение", "Методы", "Результаты", "Заключение", "Список литературы"]
  /** A first draft line shorter than this becomes the document heading. */
  const HeadingLimit: int := 50

  const TestFlag: string := "--test"
  const ResultFileName: string := "styled_document.txt"
  const RawFileName: string := "raw_for_ml.txt"

  const TestModeLines: seq<string> := [
    "Python agent DocStyler started!",
    "Version: 2.0.0",
    "MESSAGE:Python agent работает корректно",
    "MESSAGE:Готов к интеграции с ML моделью"
  ]
  const UsageLines: seq<string> := [
    "ERROR: Неправильные аргументы",
    "Использование: python main.py <шаблон> <черновик> <выходная_директория>",
    "Пример: python main.py template.txt draft.txt ./output",
    "Тест: python main.py --test"
  ]
  const MissingFilePrefix: string := "ERROR: Файл не найден: "
  const ReadErrorPrefix: string := "ERROR: Ошибка чтения файлов: "
  const SaveErrorPrefix: string := "ERROR: Ошибка сохранения: "
  const CrashPrefix: string := "ERROR: Критическая ошибка: "

  const StartingLines: seq<string> := [
    "MESSAGE:Запуск DocStyler Python агента...",
    "PROGRESS:20",
    "MESSAGE:Чтение входных файлов..."
  ]
  const TemplateStageLines: seq<string> := ["PROGRESS:40", "MESSAGE:Анализ шаблона стилей..."]
  const DraftStageLines: seq<string> := ["PROGRESS:60", "MESSAGE:Обработка документа..."]
  const SaveStageLines: seq<string> := ["PROGRESS:80", "MESSAGE:Сохранение результата..."]
  /** The lines printed between reading the inputs and writing the result. */
  const AnalysingLines: seq<string> := TemplateStageLines + DraftStageLines + SaveStageLines
  const SavedLines: seq<string> := [
    "PROGRESS:100",
    "MESSAGE:Обработка успешно завершена!"
  ]

  // ----- style extraction -----

  /**
   * The style a template line declares: for a line that, stripped, is non-empty and contains "---",
   * the stripped text before its first "---".
   */
  function StyleOf(line: string): (style: Option<string>)
    ensures style.Some? <==> Strip(line) != [] && Contains(Strip(line), StyleMarker)
    ensures style.Some? ==> !Contains(style.value, StyleMarker)
  {
    var t := Strip(line);
    if t != [] && Contains(t, StyleMarker) then
      var before := BeforeFirst(t, StyleMarker);
      StripKeepsAbsence(before, StyleMarker);
      Some(Strip(before))
    else None
  }

  /** The styles of the template lines, in template order (built from the back, as the loop appends). */
  function Styles(lines: seq<string>): (styles: seq<string>)
    ensures |styles| <= |lines|
  {
    if lines == [] then []
    else
      var last := StyleOf(lines[|lines| - 1]);
      Styles(lines[..|lines| - 1]) + (if last.Some? then [last.value] else [])
  }

  /** No extracted style contains the marker: each is the text before the marker's first occurrence. */
  lemma {:induction false} StyleHasNoMarker(lines: seq<string>, i: nat)
    requires i < |Styles(lines)|
    ensures !Contains(Styles(lines)[i], StyleMarker)
  {
    var init := lines[..|lines| - 1];
    var last := StyleOf(lines[|lines| - 1]);
    var tail := if last.Some? then [last.value] else [];
    assert Styles(lines) == Styles(init) + tail;
    if i < |Styles(init)| {
      assert Styles(lines)[i] == Styles(init)[i];
      StyleHasNoMarker(init, i);
    } else {
      assert tail != [];
      assert Styles(lines)[i] == tail[0];
    }
  }

  /** The styles of a + b are those of a followed by those of b: the order of the template is kept. */
  lemma {:induction false} StylesAppend(a: seq<string>, b: seq<string>)
    ensures Styles(a + b) == Styles(a) + Styles(b)
    decreases |b|
  {
    if b == [] {
      assert a + b == a;
    } else {
      var b' := b[..|b| - 1];
      assert (a + b)[..|a + b| - 1] == a + b';
      assert (a + b)[|a + b| - 1] == b[|b| - 1];
      StylesAppend(a, b');
    }
  }

  /** A template line declares exactly the style StyleOf gives it, and a line declaring none adds nothing. */
  lemma StylesOfOne(line: string)
    ensures Styles([line]) == if StyleOf(line).Some? then [StyleOf(line).value] else []
  {
    assert [line][..0] == [];
  }

  /** The style list of the template text: its lines are split at '\n' and scanned in order. */
  method ExtractStyles(template: string) returns (styles: seq<string>)
    ensures styles == Styles(SplitOn(template, '\n'))
  {
    var lines := SplitOn(template, '\n');
    styles := [];
    var i := 0;
    while i < |lines|
      invariant 0 <= i <= |lines|
      invariant styles == Styles(lines[..i])
    {
      var line := lines[i];
      ghost var declared := StyleOf(line);
      assert lines[..i + 1][..i] == lines[..i] && lines[..i + 1][i] == line;
      assert Styles(lines[..i + 1]) == Styles(lines[..i]) + (if declared.Some? then [declared.value] else []);
      var stripped := Strip(line);
      if stripped != [] && Contains(stripped, StyleMarker) {
        var part := Strip(BeforeFirst(stripped, StyleMarker));
        assert declared == Some(part);
        styles := styles + [part];
      }
      i := i + 1;
    }
    assert lines[..|lines|] == lines;
  }

  // ----- draft styling -----

  /** The style at position i of the template's list, or the default when the list is shorter. */
  function StyleAt(styles: seq<string>, i: nat, default: string): string {
    if |styles| > i then styles[i] else default
  }

  /** A line is blank when it strips to nothing. */
  predicate IsBlank(line: string) {
    Strip(line) == []
  }

  /** How a non-blank draft line is styled. */
  datatype LineKind = Heading | Section | Body

  /**
   * The kind of draft line number i: the first line, when shorter than 50 characters, is the heading;
   * a line equal to a section name is a section heading; anything else is body text.
   */
  function KindOf(i: nat, line: string): LineKind {
    if i == 0 && |line| < HeadingLimit then Heading
    else if line in SectionNames then Section
    else Body
  }

  /** The line as written out: "# " before the heading, "## " before a section heading. */
  function Marked(kind: LineKind, line: string): string {
    match kind
    case Heading => "# " + line
    case Section => "## " + line
    case Body => line
  }

  /**
   * The style tag after a line: the template's first, second or third style for a heading, a section
   * heading or body text, or the default for that kind when the template declares fewer styles.
   */
  function StyleTag(kind: LineKind, styles: seq<string>): string {
    match kind
    case Heading => "[Стиль: Заголовок 1 - " + StyleAt(styles, 0, DefaultHeadingStyle) + "]"
    case Section => "[Стиль: Заголовок 2 - " + StyleAt(styles, 1, DefaultSectionStyle) + "]"
    case Body => "[Стиль: Основной текст - " + StyleAt(styles, 2, DefaultBodyStyle) + "]"
  }

  /**
   * The output lines for draft line number i: nothing but "" for a blank line; otherwise the marked
   * line, its style tag, and "".
   */
  function StyledLine(i: nat, line: string, styles: seq<string>): (out: seq<string>)
    ensures IsBlank(line) ==> out == [""]
    ensures !IsBlank(line) ==> |out| == 3 && out[2] == ""
    ensures !IsBlank(line) && i == 0 && |line| < HeadingLimit ==>
      out[0] == "# " + line && out[1] == "[Стиль: Заголовок 1 - " + StyleAt(styles, 0, DefaultHeadingStyle) + "]"
    ensures !IsBlank(line) && !(i == 0 && |line| < HeadingLimit) && line in SectionNames ==>
      out[0] == "## " + line && out[1] == "[Стиль: Заголовок 2 - " + StyleAt(styles, 1, DefaultSectionStyle) + "]"
    ensures !IsBlank(line) && !(i == 0 && |line| < HeadingLimit) && line !in SectionNames ==>
      out[0] == line && out[1] == "[Стиль: Основной текст - " + StyleAt(styles, 2, DefaultBodyStyle) + "]"
  {
    if IsBlank(line) then [""]
    else
      var kind := KindOf(i, line);
      [Marked(kind, line), StyleTag(kind, styles), ""]
  }

  /** The processed lines for the draft lines, in order, each line numbered by its position. */
  function Styled(lines: seq<string>, styles: seq<string>): seq<string> {
    if lines == [] then []
    else Styled(lines[..|lines| - 1], styles) + StyledLine(|lines| - 1, lines[|lines| - 1], styles)
  }

  /** The number of non-blank lines. */
  function NonBlankCount(lines: seq<string>): nat {
    if lines == [] then 0
    else NonBlankCount(lines[..|lines| - 1]) + (if IsBlank(lines[|lines| - 1]) then 0 else 1)
  }

  /** Every non-blank draft line gives three output lines and every blank one gives one. */
  lemma {:induction false} StyledLength(lines: seq<string>, styles: seq<string>)
    ensures |Styled(lines, styles)| == |lines| + 2 * NonBlankCount(lines)
  {
    if lines != [] {
      StyledLength(lines[..|lines| - 1], styles);
    }
  }

  /** The output for the first draft line comes first. */
  lemma {:induction false} StyledStartsWithFirst(lines: seq<string>, styles: seq<string>)
    requires lines != []
    ensures |StyledLine(0, lines[0], styles)| <= |Styled(lines, styles)|
    ensures Styled(lines, styles)[..|StyledLine(0, lines[0], styles)|] == StyledLine(0, lines[0], styles)
  {
    var head := StyledLine(0, lines[0], styles);
    var init := lines[..|lines| - 1];
    var tail := StyledLine(|lines| - 1, lines[|lines| - 1], styles);
    assert Styled(lines, styles) == Styled(init, styles) + tail;
    if |lines| == 1 {
      assert init == [];
      assert Styled(init, styles) == [];
      assert tail == head;
    } else {
      assert init[0] == lines[0];
      StyledStartsWithFirst(init, styles);
      assert (Styled(init, styles) + tail)[..|head|] == Styled(init, styles)[..|head|];
    }
  }

  /** The draft's lines: the draft stripped, then split at '\n'. */
  function DraftLines(draft: string): (lines: seq<string>)
    ensures |lines| >= 1
  {
    SplitOn(Strip(draft), '\n')
  }

  /** Unless the whole draft is blank, its first line is not blank: stripping removed the blank lines before it. */
  lemma FirstDraftLineNotBlank(draft: string)
    requires Strip(draft) != []
    ensures !IsBlank(DraftLines(draft)[0])
  {
    var s := Strip(draft);
    var first := DraftLines(draft)[0];
    var k := IndexOfChar(s, '\n');
    assert first == s[..k];
    var t := TrimStart(draft);
    TrimStartShape(draft);
    TrimEndShape(t);
    assert s[0] == t[0];
    assert !IsPySpace(s[0]);
    assert k > 0 by { assert s[0] != '\n'; }
    assert first[0] == s[0];
    StripIsEmptyIff(first);
  }

  /**
   * A draft that is not blank and whose first line is shorter than 50 characters starts with that line
   * as the heading, tagged with the template's first style or "Times New Roman, 14pt".
   */
  lemma ShortFirstLineIsHeading(draft: string, styles: seq<string>)
    requires Strip(draft) != [] && |DraftLines(draft)[0]| < HeadingLimit
    ensures |Styled(DraftLines(draft), styles)| >= 2
    ensures Styled(DraftLines(draft), styles)[0] == "# " + DraftLines(draft)[0]
    ensures Styled(DraftLines(draft), styles)[1] == "[Стиль: Заголовок 1 - " + StyleAt(styles, 0, DefaultHeadingStyle) + "]"
  {
    var lines := DraftLines(draft);
    FirstDraftLineNotBlank(draft);
    StyledStartsWithFirst(lines, styles);
    var head := StyledLine(0, lines[0], styles);
    assert KindOf(0, lines[0]) == Heading;
    assert head == ["# " + lines[0], StyleTag(Heading, styles), ""];
    var out := Styled(lines, styles);
    assert out[..3] == head;
    assert out[0] == head[0] && out[1] == head[1];
  }

  lemma StyledSnoc(lines: seq<string>, i: nat, styles: seq<string>)
    requires i < |lines|
    ensures Styled(lines[..i + 1], styles) == Styled(lines[..i], styles) + StyledLine(i, lines[i], styles)
  {
    assert lines[..i + 1][..i] == lines[..i];
  }

  /** The processed lines of the draft text: the draft is stripped and split, then styled line by line. */
  method StyleDraft(draft: string, styles: seq<string>) returns (processed: seq<string>)
    ensures processed == Styled(DraftLines(draft), styles)
  {
    var lines := SplitOn(Strip(draft), '\n');
    processed := StyleLines(lines, styles);
  }

  /** The branches for a non-blank draft line: the line as written out and its style tag. */
  method MarkAndTag(i: nat, line: string, styles: seq<string>) returns (mark: string, tag: string)
    requires !IsBlank(line)
    ensures StyledLine(i, line, styles) == [mark, tag, ""]
  {
    if i == 0 && |line| < HeadingLimit {
      mark, tag := "# " + line, "[Стиль: Заголовок 1 - " + StyleAt(styles, 0, DefaultHeadingStyle) + "]";
    } else if line in SectionNames {
      mark, tag := "## " + line, "[Стиль: Заголовок 2 - " + StyleAt(styles, 1, DefaultSectionStyle) + "]";
    } else {
      mark, tag := line, "[Стиль: Основной текст - " + StyleAt(styles, 2, DefaultBodyStyle) + "]";
    }
  }

  /** The loop over the draft's lines, appending each line's output in turn. */
  method StyleLines(lines: seq<string>, styles: seq<string>) returns (processed: seq<string>)
    ensures processed == Styled(lines, styles)
  {
    processed := [];
    var i := 0;
    assert lines[..0] == [];
    while i < |lines|
      invariant 0 <= i <= |lines|
      invariant processed == Styled(lines[..i], styles)
    {
      var line := lines[i];
      ghost var before := processed;
      StyledSnoc(lines, i, styles);
      if Strip(line) != [] {
        var mark, tag := MarkAndTag(i, line, styles);
        processed := processed + [mark];
        processed := processed + [tag];
        processed := processed + [""];
        assert processed == before + [mark, tag, ""];
      } else {
        assert StyledLine(i, line, styles) == [""];
        processed := processed + [""];
        assert processed == before + StyledLine(i, line, styles);
      }
      assert processed == Styled(lines[..i + 1], styles);
      i := i + 1;
    }
    assert lines[..|lines|] == lines;
  }

  // ----- the run -----

  /**
   * The worker's filesystem: which paths exist, the text of a file (or the message it fails to read
   * with), and the message (if any) creating a directory or writing a file fails with.
   */
  datatype Env = Env(
    present: string -> bool,
    read: string -> Result<string, string>,
    makedirs: string -> Option<string>,
    write: string -> Option<string>)

  /**
   * What process_documents prints and how it ends: Success(code) when it returns code, Failure(message)
   * when it raises.
   */
  datatype Run = Run(stdout: seq<string>, result: Result<int, string>)

  /** What the whole script prints and the code it exits with. */
  datatype Outcome = Outcome(stdout: seq<string>, exitCode: int)

  /** The path of the styled document in the output directory. */
  function ResultPath(outputDir: string): string {
    Paths.PyJoin(outputDir, ResultFileName)
  }

  /** The path of the raw copy of the draft in the output directory. */
  function RawPath(outputDir: string): string {
    Paths.PyJoin(outputDir, RawFileName)
  }

  /** The lines printed on a fully successful processing run. */
  function SuccessLines(outputDir: string): (lines: seq<string>)
    ensures StartingLines <= lines && lines[|lines| - 1] == "RESULT:" + ResultPath(outputDir)
  {
    StartingLines + AnalysingLines + SavedLines + ["RESULT:" + ResultPath(outputDir)]
  }

  /**
   * The saving stage, after printed has been printed: create the output directory (a failure raises),
   * write the styled document (a failure prints an error line and returns 1), announce the result, then
   * write the raw copy (a failure prints an error line after the announcement and returns 1).
   */
  function SaveRun(outputDir: string, env: Env, printed: seq<string>): (run: Run)
    ensures printed <= run.stdout
    ensures run.result == Success(0) <==>
      env.makedirs(outputDir).None? && env.write(ResultPath(outputDir)).None? && env.write(RawPath(outputDir)).None?
    ensures run.result == Success(0) ==> run.stdout == printed + SavedLines + ["RESULT:" + ResultPath(outputDir)]
    ensures run.result.Success? ==> run.result.value in {0, 1}
  {
    match env.makedirs(outputDir)
    case Some(e) => Run(printed, Failure(e))
    case None =>
      match env.write(ResultPath(outputDir))
      case Some(e) => Run(printed + [SaveErrorPrefix + e], Success(1))
      case None =>
        var done := printed + SavedLines + ["RESULT:" + ResultPath(outputDir)];
        match env.write(RawPath(outputDir))
        case Some(e) => Run(done + [SaveErrorPrefix + e], Success(1))
        case None => Run(done, Success(0))
  }

  /**
   * process_documents: read both inputs (a failure prints an error line and returns 1), print the
   * analysis stages, then save.
   */
  function ProcessRun(templatePath: string, draftPath: string, outputDir: string, env: Env): (run: Run)
    ensures run.result == Success(0) <==>
      env.read(templatePath).Success? && env.read(draftPath).Success? && env.makedirs(outputDir).None?
      && env.write(ResultPath(outputDir)).None? && env.write(RawPath(outputDir)).None?
    ensures run.result == Success(0) ==> run.stdout == SuccessLines(outputDir)
    ensures run.result.Success? ==> run.result.value in {0, 1}
    ensures StartingLines <= run.stdout
  {
    match env.read(templatePath)
    case Failure(e) => Run(StartingLines + [ReadErrorPrefix + e], Success(1))
    case Success(_) =>
      match env.read(draftPath)
      case Failure(e) => Run(StartingLines + [ReadErrorPrefix + e], Success(1))
      case Success(_) => SaveRun(outputDir, env, StartingLines + AnalysingLines)
  }

  /** When writing the styled document fails, the run prints the stage lines and the save error, and returns 1. */
  lemma SaveFails(templatePath: string, draftPath: string, outputDir: string, env: Env)
    requires env.read(templatePath).Success? && env.read(draftPath).Success? && env.makedirs(outputDir).None?
    requires env.write(ResultPath(outputDir)).Some?
    ensures ProcessRun(templatePath, draftPath, outputDir, env)
      == Run(StartingLines + AnalysingLines + [SaveErrorPrefix + env.write(ResultPath(outputDir)).value], Success(1))
  {
  }

  /**
   * When only writing the raw copy fails, the run has already announced the result: it prints every
   * success line, then the save error, and returns 1.
   */
  lemma RawSaveFails(templatePath: string, draftPath: string, outputDir: string, env: Env)
    requires env.read(templatePath).Success? && env.read(draftPath).Success? && env.makedirs(outputDir).None?
    requires env.write(ResultPath(outputDir)).None? && env.write(RawPath(outputDir)).Some?
    ensures ProcessRun(templatePath, draftPath, outputDir, env)
      == Run(SuccessLines(outputDir) + [SaveErrorPrefix + env.write(RawPath(outputDir)).value], Success(1))
  {
  }

  /** The script is in test mode when its first argument is "--test". */
  predicate TestMode(argv: seq<string>) {
    |argv| > 1 && argv[1] == TestFlag
  }

  /** The four MESSAGE lines announcing a processing run. */
  function IntroLines(templatePath: string, draftPath: string, outputDir: string): seq<string> {
    [ "MESSAGE:Запуск обработки...",
      "MESSAGE:Шаблон: " + templatePath,
      "MESSAGE:Черновик: " + draftPath,
      "MESSAGE:Выходная директория: " + outputDir ]
  }

  /**
   * The whole script for the argument vector argv (argv[0] is the script), including the top-level
   * handler that turns an exception into an error line and exit code 1. Test mode exits 0; a wrong
   * argument count exits 2; a missing input exits 1; otherwise the processing run decides, and the
   * exit code is 0 exactly when every step of it succeeded.
   */
  function AgentRun(argv: seq<string>, env: Env): (out: Outcome)
    ensures TestMode(argv) ==> out == Outcome(TestModeLines, 0)
    ensures !TestMode(argv) && |argv| != 4 ==> out == Outcome(UsageLines, 2)
    ensures !TestMode(argv) && |argv| == 4 && (!env.present(argv[1]) || !env.present(argv[2])) ==> out.exitCode == 1
    ensures out.exitCode in {0, 1, 2}
    ensures !TestMode(argv) && out.exitCode == 0 ==>
      |argv| == 4 && out.stdout == IntroLines(argv[1], argv[2], argv[3]) + SuccessLines(argv[3])
  {
    if TestMode(argv) then Outcome(TestModeLines, 0)
    else if |argv| != 4 then Outcome(UsageLines, 2)
    else
      var templatePath, draftPath, outputDir := argv[1], argv[2], argv[3];
      if !env.present(templatePath) then Outcome([MissingFilePrefix + templatePath], 1)
      else if !env.present(draftPath) then Outcome([MissingFilePrefix + draftPath], 1)
      else
        var intro := IntroLines(templatePath, draftPath, outputDir);
        var run := ProcessRun(templatePath, draftPath, outputDir, env);
        match run.result
        case Success(code) => Outcome(intro + run.stdout, code)
        case Failure(e) => Outcome(intro + run.stdout + [CrashPrefix + e], 1)
  }

  /** Regroups the printed stages without unfolding their literal lines (keeps ProcessDocuments cheap). */
  lemma ConcatAssoc(a: seq<string>, b: seq<string>, c: seq<string>, d: seq<string>)
    ensures a + b + c + d == a + (b + c + d)
  {
  }

  /** process_documents, statement by statement; also returns the processed lines it writes out. */
  method ProcessDocuments(templatePath: string, draftPath: string, outputDir: string, env: Env)
    returns (stdout: seq<string>, result: Result<int, string>, processed: seq<string>)
    ensures Run(stdout, result) == ProcessRun(templatePath, draftPath, outputDir, env)
    ensures env.read(templatePath).Success? && env.read(draftPath).Success? ==>
      processed == Styled(DraftLines(env.read(draftPath).value), Styles(SplitOn(env.read(templatePath).value, '\n')))
  {
    processed := [];
    stdout := StartingLines;
    var template := env.read(templatePath);
    if template.Failure? {
      stdout := stdout + [ReadErrorPrefix + template.error];
      assert Run(stdout, Success(1)) == ProcessRun(templatePath, draftPath, outputDir, env);
      return stdout, Success(1), processed;
    }
    var draft := env.read(draftPath);
    if draft.Failure? {
      stdout := stdout + [ReadErrorPrefix + draft.error];
      assert Run(stdout, Success(1)) == ProcessRun(templatePath, draftPath, outputDir, env);
      return stdout, Success(1), processed;
    }
    stdout := stdout + TemplateStageLines;
    var styles := ExtractStyles(template.value);
    stdout := stdout + DraftStageLines;
    processed := StyleDraft(draft.value, styles);
    stdout := stdout + SaveStageLines;
    ConcatAssoc(StartingLines, TemplateStageLines, DraftStageLines, SaveStageLines);
    assert stdout == StartingLines + AnalysingLines;
    stdout, result := SaveResult(outputDir, env, stdout);
  }

  /** The saving stage of process_documents, statement by statement, after printed has been printed. */
  method SaveResult(outputDir: string, env: Env, printed: seq<string>) returns (stdout: seq<string>, result: Result<int, string>)
    ensures Run(stdout, result) == SaveRun(outputDir, env, printed)
  {
    stdout := printed;
    var mkdirFailure := env.makedirs(outputDir);
    if mkdirFailure.Some? {
      return stdout, Failure(mkdirFailure.value);
    }
    var resultPath := Paths.PyJoin(outputDir, ResultFileName);
    var writeFailure := env.write(resultPath);
    if writeFailure.Some? {
      stdout := stdout + [SaveErrorPrefix + writeFailure.value];
      return stdout, Success(1);
    }
    stdout := stdout + SavedLines + ["RESULT:" + resultPath];
    var rawFailure := env.write(Paths.PyJoin(outputDir, RawFileName));
    if rawFailure.Some? {
      stdout := stdout + [SaveErrorPrefix + rawFailure.value];
      return stdout, Success(1);
    }
    return stdout, Success(0);
  }

  /** main and the top-level handler: the lines printed and the exit code. */
  method RunScript(argv: seq<string>, env: Env) returns (stdout: seq<string>, exitCode: int)
    ensures Outcome(stdout, exitCode) == AgentRun(argv, env)
  {
    if |argv| > 1 && argv[1] == TestFlag {
      return TestModeLines, 0;
    }
    if |argv| != 4 {
      return UsageLines, 2;
    }
    var templatePath, draftPath, outputDir := argv[1], argv[2], argv[3];
    var inputs := [templatePath, draftPath];
    assert inputs[0] == templatePath && inputs[1] == draftPath;
    var i := 0;
    while i < |inputs|
      invariant 0 <= i <= |inputs|
      invariant forall j :: 0 <= j < i ==> env.present(inputs[j])
    {
      if !env.present(inputs[i]) {
        return [MissingFilePrefix + inputs[i]], 1;
      }
      i := i + 1;
    }
    assert env.present(inputs[0]) && env.present(inputs[1]);
    stdout := IntroLines(templatePath, draftPath, outputDir);
    var printed, result, _ := ProcessDocuments(templatePath, draftPath, outputDir, env);
    stdout := stdout + printed;
    match result
    case Success(code) =>
      exitCode := code;
    case Failure(e) =>
      stdout := stdout + [CrashPrefix + e];
      exitCode := 1;
  }
}
