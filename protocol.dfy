/**
 * The worker's standard-output protocol as the backend reads it, and the reconciliation of the
 * worker's exit code with what was read (the read loop, step 7 and the catch block of
 * processDocumentsAsync). These functions are the specification the imperative loop in
 * Service.DocumentProcessingService.ProcessDocumentsAsync is proved against.
 */
module Protocol {
  import opened Wrappers
  import opened Text
  import JavaLang
  import opened Model

  const ProgressPrefix: string := "PROGRESS:"
  const MessagePrefix: string := "MESSAGE:"
  const ResultPrefix: string := "RESULT:"

  /** The message set when a RESULT line is read. */
  const ResultMessage: string := "✅ Обработка завершена!"
  /** The message set when the worker exits with 0 and no RESULT line was read. */
  const FallbackMessage: string := "✅ Обработка завершена успешно!"
  /** The message set, followed by the exit code, when the worker fails without a RESULT line. */
  const ExitFailurePrefix: string := "❌ Python агент завершился с ошибкой: "
  /** The message set, followed by the exception message, when processing throws. */
  const FailurePrefix: string := "❌ Ошибка: "

  /**
   * Integer.parseInt(line.split(":")[1]): the progress value a PROGRESS line carries, or the message
   * of the exception it throws (ArrayIndexOutOfBoundsException when there is no second piece,
   * NumberFormatException when the piece is not an int).
   */
  function ProgressValue(line: string): (v: Result<int, string>)
    ensures v.Success? ==> JavaLang.IsInt(v.value)
    ensures |JavaLang.Split(line, ':')| <= 1 ==>
      v == Failure(JavaLang.IndexOutOfBoundsMessage(1, |JavaLang.Split(line, ':')|))
    ensures |JavaLang.Split(line, ':')| > 1 && v.Failure? ==>
      v.error == JavaLang.NumberFormatMessage(JavaLang.Split(line, ':')[1])
  {
    var parts := JavaLang.Split(line, ':');
    if |parts| > 1 then JavaLang.ParseInt(parts[1])
    else Failure(JavaLang.IndexOutOfBoundsMessage(1, |parts|))
  }

  /** What a RESULT line naming path does to the record. */
  function Completion(r: Record, path: string, now: Timestamp): (r': Record)
    ensures r'.status == Completed && r'.progress == 100 && r'.message == Some(ResultMessage)
    ensures r'.resultFilePath == Some(path) && r'.endTime == Some(now)
    ensures SameIdentity(r, r')
    ensures WellFormed(r) ==> WellFormed(r')
  {
    r.(resultFilePath := Some(path), status := Completed, progress := 100, endTime := Some(now),
       message := Some(ResultMessage))
  }

  /**
   * One pass of the read loop: the record after the line, or the message of the exception the line
   * makes the loop throw. The prefixes are tried in the order PROGRESS, MESSAGE, RESULT.
   */
  function Step(r: Record, line: string, now: Timestamp): (next: Result<Record, string>)
    ensures next.Failure? ==> StartsWith(line, ProgressPrefix)
    ensures next.Success? ==> SameIdentity(r, next.value)
    ensures next.Success? ==> next.value.status == r.status || next.value.status == Completed
    ensures next.Success? && WellFormed(r) ==> WellFormed(next.value)
  {
    if StartsWith(line, ProgressPrefix) then
      match ProgressValue(line)
      case Failure(e) => Failure(e)
      case Success(p) => Success(r.(progress := p))
    else if StartsWith(line, MessagePrefix) then Success(r.(message := Some(line[8..])))
    else if StartsWith(line, ResultPrefix) then Success(Completion(r, line[7..], now))
    else Success(r)
  }

  /** Where the read loop ends: the stream was drained, or a line threw and the loop was left. */
  datatype Drain = Drained(rec: Record) | Aborted(rec: Record, cause: string)

  /**
   * The whole read loop over the worker's output lines, from record r. A line that throws leaves the
   * record as it was before that line, and no later line is read. The status only ever stays or becomes
   * COMPLETED, nothing touches the identity fields, and the record invariant is kept.
   */
  function Interpret(r: Record, lines: seq<string>, now: Timestamp): (d: Drain)
    ensures d.rec.status == r.status || d.rec.status == Completed
    ensures SameIdentity(r, d.rec)
    ensures WellFormed(r) ==> WellFormed(d.rec)
    decreases |lines|
  {
    if lines == [] then Drained(r)
    else
      match Step(r, lines[0], now)
      case Failure(cause) => Aborted(r, cause)
      case Success(r') => Interpret(r', lines[1..], now)
  }

  /** The catch block: status ERROR and the failure message; nothing else changes. */
  function Abort(r: Record, cause: string): (r': Record)
    ensures r'.status == Error
    ensures r'.message == Some(FailurePrefix + cause)
    ensures r' == r.(status := Error, message := r'.message)
    ensures WellFormed(r) ==> WellFormed(r')
  {
    r.(status := Error, message := Some(FailurePrefix + cause))
  }

  /**
   * Step 7: reconciling the exit code with what the loop saw. The job always ends COMPLETED or ERROR;
   * a COMPLETED record is left exactly as it is whatever the code; otherwise a non-zero code gives ERROR
   * with a message ending in the code, and 0 gives COMPLETED at 100 without a result path being set.
   */
  function Reconcile(r: Record, exitCode: int, now: Timestamp): (r': Record)
    ensures r'.status != Processing
    ensures r.status == Completed ==> r' == r
    ensures r.status != Completed && exitCode != 0 ==>
      r'.status == Error && r' == r.(status := Error, message := r'.message)
      && r'.message == Some(ExitFailurePrefix + JavaLang.ToString(exitCode))
    ensures r.status != Completed && exitCode == 0 ==>
      r'.status == Completed && r'.progress == 100 && r'.resultFilePath == r.resultFilePath
      && r'.message == Some(FallbackMessage) && r'.endTime == Some(now)
    ensures SameIdentity(r, r')
    ensures WellFormed(r) ==> WellFormed(r')
  {
    if exitCode != 0 && r.status != Completed then
      r.(status := Error, message := Some(ExitFailurePrefix + JavaLang.ToString(exitCode)))
    else if r.status == Completed then r
    else r.(status := Completed, progress := 100, message := Some(FallbackMessage), endTime := Some(now))
  }

  /** The record once the worker's output is read and its exit code reconciled (or the loop threw). */
  function AfterWorker(r: Record, lines: seq<string>, exitCode: int, now: Timestamp): (r': Record)
    ensures r'.status != Processing
    ensures SameIdentity(r, r')
    ensures WellFormed(r) ==> WellFormed(r')
  {
    match Interpret(r, lines, now)
    case Drained(r1) => Reconcile(r1, exitCode, now)
    case Aborted(r1, cause) => Abort(r1, cause)
  }

  // ----- single lines -----

  /** A MESSAGE line sets the message to the text after its 8-character prefix, and changes nothing else. */
  lemma MessageLine(r: Record, text: string, now: Timestamp)
    ensures Step(r, MessagePrefix + text, now) == Success(r.(message := Some(text)))
  {
    var line := MessagePrefix + text;
    assert !StartsWith(line, ProgressPrefix) by { assert line[0] != ProgressPrefix[0]; }
    assert StartsWith(line, MessagePrefix) && line[8..] == text;
  }

  /** A RESULT line completes the job: result path, COMPLETED, 100, end time and the completion message. */
  lemma ResultLine(r: Record, path: string, now: Timestamp)
    ensures Step(r, ResultPrefix + path, now) == Success(Completion(r, path, now))
  {
    var line := ResultPrefix + path;
    assert !StartsWith(line, ProgressPrefix) by { assert line[0] != ProgressPrefix[0]; }
    assert !StartsWith(line, MessagePrefix) by { assert line[0] != MessagePrefix[0]; }
    assert StartsWith(line, ResultPrefix) && line[7..] == path;
  }

  /** A line with none of the three prefixes leaves the record unchanged. */
  lemma OtherLine(r: Record, line: string, now: Timestamp)
    requires !StartsWith(line, ProgressPrefix) && !StartsWith(line, MessagePrefix) && !StartsWith(line, ResultPrefix)
    ensures Step(r, line, now) == Success(r)
  {
  }

  /**
   * A PROGRESS line carrying any int sets the progress to exactly that value: nothing clamps it to
   * [0, 100], so negative values and values over 100 are stored as they are.
   */
  lemma ProgressLine(r: Record, n: int, now: Timestamp)
    requires JavaLang.IsInt(n)
    ensures Step(r, ProgressPrefix + JavaLang.ToString(n), now) == Success(r.(progress := n))
  {
    var digits := JavaLang.ToString(n);
    JavaLang.ToStringShape(n);
    assert ProgressPrefix + digits == "PROGRESS" + [':'] + digits;
    JavaLang.SplitTwo("PROGRESS", ':', digits);
    JavaLang.ParseIntOfToString(n);
  }

  /** The text of rest up to its first colon: the piece between the first and second colon of a PROGRESS line. */
  function FirstField(rest: string): string {
    rest[..IndexOfChar(rest, ':')]
  }

  /**
   * A PROGRESS line succeeds exactly when the text between its first and second colon (or the end of the
   * line) is an int, and then that int is the value; a missing, empty or non-numeric piece throws.
   */
  lemma ProgressLineField(rest: string)
    ensures ProgressValue(ProgressPrefix + rest).Success? <==> JavaLang.ParseInt(FirstField(rest)).Success?
    ensures ProgressValue(ProgressPrefix + rest).Success? ==>
      ProgressValue(ProgressPrefix + rest).value == JavaLang.ParseInt(FirstField(rest)).value
  {
    var line := ProgressPrefix + rest;
    assert line == "PROGRESS" + [':'] + rest;
    assert line[8] == ':';
    IndexOfCharAfter("PROGRESS", ':', rest);
    var k := IndexOfChar(line, ':');
    assert line[..k] == "PROGRESS" && line[k + 1..] == rest;
    var pieces := SplitOn(line, ':');
    assert pieces == ["PROGRESS"] + SplitOn(rest, ':');
    assert SplitOn(rest, ':')[0] == FirstField(rest);
    var parts := JavaLang.Split(line, ':');
    assert parts == JavaLang.DropTrailingEmpty(pieces);
    if |parts| > 1 {
      assert parts[1] == pieces[1];
    } else {
      assert pieces[1] == "";
      assert JavaLang.ParseInt(FirstField(rest)).Failure?;
    }
  }

  // ----- the read loop -----

  /** Reading a + b is reading a, then, if a did not throw, reading b from where a left the record. */
  lemma {:induction false} InterpretAppend(r: Record, a: seq<string>, b: seq<string>, now: Timestamp)
    ensures Interpret(r, a, now).Drained? ==>
      Interpret(r, a + b, now) == Interpret(Interpret(r, a, now).rec, b, now)
    ensures Interpret(r, a, now).Aborted? ==> Interpret(r, a + b, now) == Interpret(r, a, now)
    decreases |a|
  {
    if a == [] {
      assert a + b == b;
    } else {
      assert (a + b)[0] == a[0];
      assert (a + b)[1..] == a[1..] + b;
      var s := Step(r, a[0], now);
      if s.Success? {
        InterpretAppend(s.value, a[1..], b, now);
      }
    }
  }

  /** Some line of lines starts with RESULT:. */
  predicate HasResultLine(lines: seq<string>) {
    exists i :: 0 <= i < |lines| && StartsWith(lines[i], ResultPrefix)
  }

  /**
   * For a job still processing, a drained read loop leaves it COMPLETED exactly when some line
   * was a RESULT line; otherwise it is still PROCESSING.
   */
  lemma {:induction false} CompletedIffResultLine(r: Record, lines: seq<string>, now: Timestamp)
    requires r.status == Processing
    requires Interpret(r, lines, now).Drained?
    ensures Interpret(r, lines, now).rec.status == Completed <==> HasResultLine(lines)
    ensures !HasResultLine(lines) ==> Interpret(r, lines, now).rec.status == Processing
    decreases |lines|
  {
    if lines != [] {
      var line := lines[0];
      var r1 := Step(r, line, now).value;
      if StartsWith(line, ResultPrefix) {
        assert !StartsWith(line, ProgressPrefix) by { assert line[0] != ProgressPrefix[0]; }
        assert !StartsWith(line, MessagePrefix) by { assert line[0] != MessagePrefix[0]; }
        assert r1.status == Completed;
        assert HasResultLine(lines);
      } else {
        assert r1.status == Processing;
        CompletedIffResultLine(r1, lines[1..], now);
        assert HasResultLine(lines) <==> HasResultLine(lines[1..]) by {
          if HasResultLine(lines) {
            var i :| 0 <= i < |lines| && StartsWith(lines[i], ResultPrefix);
            assert i > 0 && lines[1..][i - 1] == lines[i];
          }
          if HasResultLine(lines[1..]) {
            var i :| 0 <= i < |lines[1..]| && StartsWith(lines[1..][i], ResultPrefix);
            assert lines[i + 1] == lines[1..][i];
          }
        }
      }
    }
  }

  /** The result path the RESULT lines of lines leave behind, starting from path: the last one wins. */
  function LastResultPath(lines: seq<string>, path: Option<string>): Option<string>
    decreases |lines|
  {
    if lines == [] then path
    else
      var line := lines[0];
      LastResultPath(lines[1..], if StartsWith(line, ResultPrefix) then Some(line[7..]) else path)
  }

  /** A drained read loop leaves the result path named by the last RESULT line, or the one it started with. */
  lemma {:induction false} ResultPathOfLastResultLine(r: Record, lines: seq<string>, now: Timestamp)
    requires Interpret(r, lines, now).Drained?
    ensures Interpret(r, lines, now).rec.resultFilePath == LastResultPath(lines, r.resultFilePath)
    decreases |lines|
  {
    if lines != [] {
      var line := lines[0];
      var r1 := Step(r, line, now).value;
      if StartsWith(line, ResultPrefix) {
        assert !StartsWith(line, ProgressPrefix) by { assert line[0] != ProgressPrefix[0]; }
        assert !StartsWith(line, MessagePrefix) by { assert line[0] != MessagePrefix[0]; }
        assert r1.resultFilePath == Some(line[7..]);
      }
      ResultPathOfLastResultLine(r1, lines[1..], now);
    }
  }

  // ----- whole runs -----

  /**
   * A line that throws ends the job in ERROR with the exception's message, whatever came before it:
   * even after a RESULT line has made the job COMPLETED, a bad PROGRESS line turns it into ERROR,
   * keeping the result path and the progress the RESULT line set.
   */
  lemma ThrowingLineAfterResult(r: Record, path: string, bad: string, rest: seq<string>, exitCode: int, now: Timestamp)
    requires Step(Completion(r, path, now), bad, now).Failure?
    ensures var r' := AfterWorker(r, [ResultPrefix + path, bad] + rest, exitCode, now);
      && r'.status == Error
      && r'.message == Some(FailurePrefix + Step(Completion(r, path, now), bad, now).error)
      && r'.resultFilePath == Some(path)
      && r'.progress == 100
  {
    var lines := [ResultPrefix + path, bad] + rest;
    var c := Completion(r, path, now);
    ResultLine(r, path, now);
    assert lines[0] == ResultPrefix + path && lines[1..] == [bad] + rest;
    assert Interpret(r, lines, now) == Interpret(c, [bad] + rest, now);
    assert ([bad] + rest)[0] == bad;
    assert Interpret(c, [bad] + rest, now) == Aborted(c, Step(c, bad, now).error);
  }

  /**
   * Lines read after a RESULT line still change the job: a later PROGRESS line overwrites the 100 and a
   * later MESSAGE line overwrites the completion message, and the status stays COMPLETED whatever the exit code.
   */
  lemma LinesAfterResult(r: Record, path: string, n: int, text: string, exitCode: int, now: Timestamp)
    requires JavaLang.IsInt(n)
    ensures var r' := AfterWorker(r, [ResultPrefix + path, ProgressPrefix + JavaLang.ToString(n), MessagePrefix + text], exitCode, now);
      && r'.status == Completed
      && r'.progress == n
      && r'.message == Some(text)
      && r'.resultFilePath == Some(path)
  {
    var c := Completion(r, path, now);
    var p := ProgressPrefix + JavaLang.ToString(n);
    var m := MessagePrefix + text;
    ResultLine(r, path, now);
    ProgressLine(c, n, now);
    MessageLine(c.(progress := n), text, now);
    var lines := [ResultPrefix + path, p, m];
    var last := c.(progress := n).(message := Some(text));
    assert Interpret(last, [], now) == Drained(last);
    assert Interpret(c.(progress := n), [m], now) == Drained(last) by { assert [m][1..] == []; }
    assert Interpret(c, [p, m], now) == Drained(last) by { assert [p, m][1..] == [m]; }
    assert Interpret(r, lines, now) == Drained(last) by { assert lines[1..] == [p, m]; }
  }
}
